# ExoSwarm: the durable investigation controller

ExoSwarm lets language models propose experiments on a light curve while a
deterministic controller owns the budgets, the evidence and the verdict. The
controller may be killed after any single durable write and must carry on from
its files. This project models that controller, the inference loop beneath it,
the lock that seals a result before the catalog is opened, the driver and event
stream around it, and four self-contained computations, and proves what they
promise.

## How it is modelled

- **Storage** (`Store`). A `Disk` holds the files of one run: snapshot, trace,
  evidence ledger, role records, locked result, digest, reveal. A `Run` is the
  history of durable states that a process passes through; each write pushes
  one. A crash is therefore any element of a history, and "every durable state"
  in a theorem means every element. Exceptions are a sticky exit that makes all
  later writes void: an abort that `advance` turns into a termination, or a
  fault that escapes from it.
- **Rules** (`Policy`) and **nodes** (`Nodes`). Pure functions say what is
  missing, available, acceptable and decided, and which writes each graph node
  makes from a given state. Models and tools are oracles: a tool is a function
  of its inputs, a model answers anything.
- **The program's form** (`Controlling`, `Driving.RunService`,
  `LockReveal.AuthorityService`, `Attempts.Session`,
  `Streaming.Subscription`). Classes with volatile fields beside the durable
  store, loops and in-place updates; every method is proved to make exactly the
  writes of its function, and the methods of nodes, locks and the driver promise
  their callers what the theorems say about these functions.
- **The invariant** (`Invariant`) relates the stores: counters to records,
  references to ledger, ledger to executions, the snapshot's science to the
  replay of the ledger, proposals and reviews to steps, contexts and the trace's
  charge and result events, the sealed files to the verdict. `Steps` shows that
  each kind of write keeps it, `Writes`, `Committing`, `Recovery` and
  `Executing` that sequences of writes do, `Routing`, `NodeSafety` and
  `Outcomes` that nodes do, `Cycle` and `Advancing` that whole cycles do, and
  `Lives` that any life of a run does. `Rules` says what the rules mean apart
  from how they are computed; `Accounting` says which executions the completed
  tests, the decisive codes and the final record stem from.
- **Resumption** (`Resuming`) says when an advance over an unfinished or
  unevaluated execution goes on, and `Shortfall` from which durable states the
  driver can run out of advances.
- **Witnesses** (`Witnesses`) are lives of new runs that reach the states between
  durable writes of which `Windows` speaks.
- **Relational results**: `Executing` (crashed against uninterrupted),
  `Interference` and `Driving` (two behaviours of the models), `Windows` (a role
  asked twice against once).
- **Inference** is a coroutine cut at its awaits (`Inference`), each holding its
  own copy of the snapshot, so that any number of calls can be interleaved on
  shared counters (`Interleaving`); `Attempts` says, over a client's replies,
  which attempts one call makes, when it repairs, retries and falls back, and how
  it ends;
  `Authorization` carries its results back to the nodes.

## What the code does not guarantee

Each of these is stated as a theorem about the code as it is.

- Between saving an accepted proposal and the status WAITING_FOR_CRITIC the run
  is stranded (`Windows.EveryProposalCanStrand`): resumed there, an approved
  experiment is requested from SELECTING and the transition table refuses it
  (`Windows.EveryExperimentCanBeLost`, and from a new run with the shipped
  registry `Witnesses.ShippedReaches`). `Lives.TransitionsAreLegal` shows that
  this is the only illegal request, and exactly when it happens.
- Between the commit of an experiment and its `evidence.appended` event a crash
  makes the next selection repeat the executed proposal, which ends the run
  (`Windows.LostAnnouncementIsReached`, exactly when the policy after the result
  would go on). Budgets are safe there. This needs a second experiment on offer
  (`Witnesses.UnannouncedIsReached`); with the shipped registry, which supports
  one, it never happens (`Witnesses.NeverUnannounced`).
- A charge made from a snapshot copy that is older than the store loses a call
  (`Inference.StaleCopiesLoseCalls`); the copies that the code takes again after
  each await are what makes interleaved calls safe.
- A give-up after the ledger append leaves one record that the snapshot never
  refers to (`Lives.LedgerAgrees`).
- The driver's budget of `max_steps - step_count + 1` advances is too small for
  runs resumed inside a step, and not only inside the last one
  (`Shortfall.EarlyCrashFallsShort`). `Shortfall.ShortExactly` gives the exact
  durable states, `Short`: live, not finalizing and not at a boundary; tool calls
  left, and tests of the baseline left to run, for every advance of the budget; a
  result already fixed that lets the run go on; and, if the budget reaches to the
  end of the baseline, evidence that decides nothing so far and either a success
  or an experiment left. From a boundary it always suffices
  (`Driving.BudgetSuffices`).
- With its default limit `assemble_context` never trims: the size field's own
  ceiling raises first (`Packing.NothingIsTrimmedAtTheCeiling`).
- A mandatory node without a runnable test terminates the run and then finds no
  edge; this needs a registry unlike the shipped one
  (`Driving.CoveringRuns`, `Driving.RegistryCovers`).

## Model

| member | source | states |
|---|---|---|
| Lives.LifeIsGood | apps/api/src/exoswarm/investigation/controller.py:422-558 | In every durable state of every life of a run, crash states included, the invariant holds, and nothing a later state must keep (trace, ledger, role records, references, steps, calls, locked files) is ever taken back. A life is any sequence of advances with any model answers, give-ups, locks and reveals, each cut after any of its durable writes. |
| Lives.BudgetsAreConserved | apps/api/src/exoswarm/investigation/controller.py:2291-2424 | Tool calls equal executions, adaptive calls equal adaptive executions, cost used equals the sum of execution costs and complements what is left; all within their limits, steps, model calls, retries and revisions too; action signatures are pairwise distinct. |
| Lives.LedgerAgrees | apps/api/src/exoswarm/investigation/controller.py:2779-2866 | Ledger ids are the snapshot's references followed by at most one record, which belongs to the unfinished execution; the completed tests, candidates and hypotheses are the replay of the referred records; every candidate measurement is quoted from the ledger, so the provenance check never fires. |
| Lives.StopsAreFinal | apps/api/src/exoswarm/investigation/state.py:12-80 | A stop status is kept forever, except READY_TO_LOCK, then RESULT_LOCKED, then REVEALED. |
| Lives.TransitionsAreLegal | apps/api/src/exoswarm/investigation/state.py:74-83 | A node asks for a transition outside the table if and only if its cycle starts stranded (see Windows.EveryProposalCanStrand) with a reviewed experiment whose inputs are at hand; no snapshot, ledger, role-record, provenance or step-limit error can occur at all. |
| Lives.LockIsForever | apps/api/src/exoswarm/security/result_lock.py:24-89 | A locked run has all four mandatory tests and the disposition of its ledger; result bytes, digest, references, ledger and receipt never change again under any interleaving of advances, locks, reveals and crashes between the file writes. |
| Lives.CatalogFollowsLock | apps/api/src/exoswarm/security/catalog_gate.py:23-84 | No catalog exists before the lock; every catalog names the digest of the exact locked bytes and is never replaced. |
| Lives.TraceIsNumbered | apps/api/src/exoswarm/investigation/controller.py:3480-3519 | Trace sequences are 1..n in every durable state across restarts, and a trace only grows. |
| Lives.VerdictFollowsLedger | apps/api/src/exoswarm/investigation/controller.py:3016-3079 | Two runs with the same ledger that are ready or locked have the same disposition, hypotheses and candidates, whatever their models, tools and crashes were. |
| Lives.ReasonsAreTrue | apps/api/src/exoswarm/investigation/stopping.py:4-29 | Every ready or locked run says truly why it ended: a decisive code is the one of its ledger, an exhausted budget is exhausted, nothing is on offer where nothing is said to be, an outcome is that of the newest execution, and a veto or stop is that of the review. |
| Lives.ExecutionsWereAllowed | apps/api/src/exoswarm/investigation/controller.py:2301-2372 | Every execution ever made belongs to a registered and authorized tool whose prerequisites are complete; baseline executions are mandatory tools and cost nothing, adaptive ones cost exactly what the registry says and ran after the whole baseline. |
| Lives.VerdictsMean | apps/api/src/exoswarm/investigation/controller.py:3065-3079 | A ready or locked run has a verdict, and exactly the one that the codes of its ledger and the presence of a candidate give it: rejected, weak or surviving, each by an if-and-only-if in the codes themselves. |
| Lives.InitialIsGood | apps/api/src/exoswarm/investigation/controller.py:233-261 | The snapshot of a new run satisfies the invariant, whether or not its first event was written. |
| Lives.ProposalsWereVetted | apps/api/src/exoswarm/investigation/controller.py:1929-1993 | In every durable state of every life a proposal that is waiting swears, in its fields, to all that its validation asks for, and its review is bound to it, well founded and permitted. |
| Lives.ProposersWereBriefed | apps/api/src/exoswarm/investigation/controller.py:531-545 | In multi-agent mode every proposal ever recorded has the records of all four briefings of its context; and every recorded proposal is of this run and well founded. |
| Lives.TestsAreEarned | apps/api/src/exoswarm/investigation/controller.py:3016-3064 | In every durable state a test is complete exactly if a referred record of a tool registered for it is a success, an absence or undecided; the candidate is what the newest successful search measured, each value quoted from it; the hypotheses are those of the newest deciding code. |
| Advancing.AdvanceSafe | apps/api/src/exoswarm/investigation/controller.py:422-442 | From every durable state an advance keeps every state it writes good, ends every abort in a legal terminal status, makes at most one tool call and one record, and either stops, comes to rest, or fails; exactly when it fails, and with which error, is stated by conditions on the state before it and the review. |
| Advancing.AdvanceWithin | apps/api/src/exoswarm/agents/graph.py:134-176 | The same for every recursion limit of at least ten: a cycle visits at most ten nodes, so that the limit of sixteen is never hit. |
| Advancing.CycleFromRest | apps/api/src/exoswarm/investigation/controller.py:422-558 | From a cycle boundary an advance stops, or charges exactly one step, makes exactly one tool call, appends exactly one record, and returns to a boundary. |
| Routing.RouteGood | apps/api/src/exoswarm/investigation/controller.py:473-558 | The Director charges a step exactly when the last charge has been answered, never retakes the recovery edge, and every edge it chooses leads to a node that finds what it relies on; a step without a proposal is sent to the first role without a record of this context, in multi-agent mode; it aborts, over budget, exactly when a step must be charged and none is left. |
| Routing.FreshReached | apps/api/src/exoswarm/investigation/controller.py:1036-1054 | A step without a proposal goes to a mandatory test, a termination, an end, the specialists, the Director's briefing or the Skeptic, each exactly when tests, candidate, means, offer and the briefings' checkpoints say so; and it finds there what it relies on. |
| Routing.LifecycleReached | apps/api/src/exoswarm/agents/director.py:55-76 | A step with a proposal goes to its review, its end or its execution, each exactly when the review, its resolution and the action wanted say so. |
| NodeSafety.MandatoryGood | apps/api/src/exoswarm/investigation/controller.py:580-602 | The mandatory node runs, without parameters, the first tool of the registry that completes a missing test with its prerequisites, or ends the run for want of evidence when there is none. |
| NodeSafety.SkepticGood | apps/api/src/exoswarm/investigation/controller.py:725-787 | The proposal node records a proposal, with its role record, and waits for its review exactly when the proposal's fields swear to what the validation asks for; otherwise it aborts with the client's failure or as invalid; every started call is charged. |
| NodeSafety.CriticGood | apps/api/src/exoswarm/investigation/controller.py:789-848 | The review node leaves the recorded review, or records the client's exactly when its fields attest to what the validation asks for, beside the same proposal and status; otherwise it aborts with the client's failure, over budget for a revision without budget, or as invalid; it never faults. |
| NodeSafety.VerdictGood | apps/api/src/exoswarm/investigation/controller.py:851-892 | A verdict is always resolved without an abort: the revision budget was enforced when the review was accepted; a veto, or a stop wanted by the revision or the unrevised proposal, leads to the end, everything else to execution. |
| NodeSafety.CatchGood | apps/api/src/exoswarm/investigation/controller.py:432-441 | Every abort of a node becomes a legal transition into the abort's terminal status, with its failure noted and given as the reason, and fails exactly the execution it names. |
| NodeSafety.FailRunGood | apps/api/src/exoswarm/investigation/controller.py:332-359 | Giving a run up is a legal failure from every durable state that has not stopped, and fails exactly the unfinished execution with it; a stopped run is left alone. |
| NodeSafety.SpecialistsBeside | apps/api/src/exoswarm/investigation/controller.py:606-684 | After the specialists' node each of the three has its record of this context, what it said or that it was skipped, in the commit order; nothing that the cycle relies on has changed. |
| NodeSafety.BriefingBeside | apps/api/src/exoswarm/investigation/controller.py:687-722 | The same for the Director's briefing. |
| Outcomes.AdaptiveGood | apps/api/src/exoswarm/investigation/controller.py:895-926 | An approved experiment is performed in its step, refused with an abort, or, exactly in the stranded state with its inputs at hand, requested illegally without any write. |
| Outcomes.EvaluateGood | apps/api/src/exoswarm/investigation/controller.py:929-945 | An evaluation never aborts: it ends the run, prepares its end, returns to vetting or selection, and changes no evidence or counter. |
| Outcomes.FinalGood | apps/api/src/exoswarm/investigation/controller.py:948-1020 | The final node always ends the run: READY_TO_LOCK with the verdict that the codes and the candidate give and the reason in its order, or INSUFFICIENT_EVIDENCE exactly when they give none; in multi-agent mode with the Director's last word on record. |
| Outcomes.EvaluationDecides | apps/api/src/exoswarm/investigation/controller.py:2902-2997 | Exactly when an evaluated result stops the run, in which status and for which failure, returns to the baseline, goes on to choose an experiment, or prepares the end and for which reason. |
| Rules.OfferMeans | apps/api/src/exoswarm/investigation/controller.py:2173-2189 | On offer are exactly the adaptive tools that are supported, affordable, prepared and not yet run without parameters; stopping is on offer exactly when one of them is. |
| Rules.FirstRunnableIs | apps/api/src/exoswarm/investigation/controller.py:585-602 | The mandatory tool chosen is the first in registry order that completes a missing test with its prerequisites; none is chosen only if there is none. |
| Rules.DispositionMeans | apps/api/src/exoswarm/investigation/controller.py:3065-3079 | A verdict is a rejection exactly with a rejecting code in the ledger; weak exactly with a weak code, none rejecting and no weak noise; a survival exactly with no adverse code and a clean code or a candidate; and there is none in exactly the remaining cases. |
| Rules.DecisiveMeans | apps/api/src/exoswarm/investigation/hypotheses.py:40-46 | The deciding code is the first by name of those in the ledger, and there is none exactly when the ledger holds none of the four. |
| Rules.ProposalIsValid | apps/api/src/exoswarm/investigation/controller.py:2209-2254 | A proposal is let through exactly if it is of this run and role, for this step and context, well founded, declares the budget left and the registered cost (none for a stop), and asks for an action on offer that is registered, authorized, adaptive, schema-valid, unrepeated, paid for and prepared after the whole baseline, or to stop without parameters; and it is over budget exactly if only calls or costs are missing. |
| Rules.ReviewIsValid | apps/api/src/exoswarm/investigation/controller.py:1969-1993 | A review is let through exactly if it is of this run and role, of this proposal, step and context, well founded, and a revision is left in its budget and asks for what is permitted; and it is over budget exactly if a revision has no budget of revisions, calls or costs. |
| Rules.RefusalIs | apps/api/src/exoswarm/investigation/controller.py:2301-2372 | An execution passes its guards exactly if admission is open, calls, count and costs are left, and its tool is registered, authorized, schema-valid, unrepeated, prepared, on offer after the baseline or mandatory, with its inputs at hand; a refusal is over budget exactly if a budget is spent, for want of evidence exactly if only the inputs are missing, and a failure otherwise. |
| Rules.ReasonMeans | apps/api/src/exoswarm/investigation/stopping.py:13-29 | A run ends for the reason fixed with its last result, and otherwise, in this order, for the veto, the stop, the count, the costs, and the lack of an experiment, which is the costs' fault exactly if one could be offered for more. |
| Writes.TellCounts | apps/api/src/exoswarm/investigation/controller.py:1711-1719 | Every call that a role starts and every retry that it takes is counted, as far as the limits go, and each retry notes its failure. |
| Executing.CrashesDoNotMatter | apps/api/src/exoswarm/investigation/controller.py:2779-2865 | Whatever the tool does (answer, answer with something that does not fit, raise, time out), and however often the process dies while it executes or recovers the action, the recovery that finishes has the exit of the uninterrupted execution, its snapshot and its ledger: no second charge, and one record or none. |
| Executing.ExecutionIsRecoverable | apps/api/src/exoswarm/investigation/controller.py:2291-2424 | Every execution that finishes had, once prepared, the state in which its result is pending, if its tool may be run again. |
| Executing.ExecuteGood | apps/api/src/exoswarm/investigation/controller.py:2291-2503 | From a status that may run tools an execution is refused before any write, aborted after its charge, or performed: one call, one record, announced in the same step. |
| Executing.PreparedIsRerunnable | apps/api/src/exoswarm/investigation/controller.py:2373-2424 | Every execution of a repeatable tool that passes its guards has charged exactly one call when the state from which CrashesDoNotMatter speaks is durable, and from there on is the execution of which it speaks. |
| Recovery.RecoverGood | apps/api/src/exoswarm/investigation/controller.py:3161-3308 | Recovery leaves no unfinished execution: it commits exactly the record that is in the ledger, or the tool's, or aborts that execution, as failed or because its inputs are no longer at hand; it happens exactly when a tool was running. |
| Recovery.RecoveredIsCommitted | apps/api/src/exoswarm/investigation/controller.py:3310-3393 | The recovered commit of a record that the snapshot does not refer to equals the normal commit of it. |
| Committing.CommitGood | apps/api/src/exoswarm/investigation/controller.py:2779-2900 | A fitting result is committed without any error and announced by a boundary event that overtakes the charge of its step. |
| Windows.EveryProposalCanStrand | apps/api/src/exoswarm/investigation/controller.py:762-785 | The last state written before an accepted proposal gets its status is durable, still SELECTING, holds that proposal unreviewed and the same ledger: the window in which the strong guarantee does not hold. |
| Windows.LostAnnouncementEndsTheRun | apps/api/src/exoswarm/investigation/controller.py:2855-2899 | In an unannounced step the next cycle ends the run without a tool call and with the same ledger. |
| Windows.RoleIsAskedOnce | apps/api/src/exoswarm/investigation/controller.py:1164-1186 | From every durable state in which a role's record exists, recovery leaves exactly one record and one checkpoint per role, phase and context, and the role is not asked again. |
| Windows.RoleLeavesOne | apps/api/src/exoswarm/investigation/controller.py:1244-1362 | A role that is asked leaves exactly one record and one checkpoint of its key, what it said or that it was skipped, and its calls are charged; one that is done is not asked. |
| Windows.SpecialistsAskedOnce | apps/api/src/exoswarm/investigation/controller.py:606-684 | When the three briefings are recorded the specialists' node writes nothing but recovered checkpoints, for any answers. |
| Windows.FinalAskedOnce | apps/api/src/exoswarm/investigation/controller.py:980-1020 | From every durable state that is not a stop and in which the Director's final record exists, however the run came to be concluded, the advance is the same for all answers of all models. |
| Windows.StrandedFails | apps/api/src/exoswarm/investigation/controller.py:895-926 | From a stranded step the approval of its experiment, if the inputs are at hand, makes the advance fail with an illegal transition. |
| Windows.EveryExperimentCanBeLost | apps/api/src/exoswarm/investigation/controller.py:762-785 | Every proposed experiment whose inputs are at hand has a crash state and answers of the models for which the next advance fails with an illegal transition. |
| Windows.AnnouncementCanBeLost | apps/api/src/exoswarm/investigation/controller.py:2855-2899 | Every experiment that is performed passes through a durable state in which it is committed and not announced. |
| Windows.LostAnnouncementIsReached | apps/api/src/exoswarm/investigation/controller.py:929-945 | From that state one advance ends the run or, exactly when the policy after its result goes on, leaves the step unannounced; then the next advance ends the run for all answers of all models, without a tool call or a record. |
| Resuming.UpdatingAdvance | apps/api/src/exoswarm/investigation/controller.py:929-945 | An advance over a committed result stops the run exactly when the policy after the result does not go on; otherwise it leaves tool counters, step and ledger as they were. |
| Resuming.RunningAdvance | apps/api/src/exoswarm/investigation/controller.py:3161-3308 | An advance over an unfinished execution goes on exactly when that execution has a record or its tool answers again, and the policy goes on after that result; the state is then the committed one. |
| Authorization.ApprovalIsStable | apps/api/src/exoswarm/investigation/controller.py:2301-2372 | In every durable state with a reviewed and not vetoed proposal waiting, the execution passes every budget, scope, duplicate, availability and precondition guard; only missing inputs can refuse it; otherwise exactly the tool and parameters that the review wants are charged and run. |
| Authorization.InferredProposalStands | apps/api/src/exoswarm/investigation/controller.py:1929-1968 | A proposal returned by the attempt loop, from any client or the fallback, swears to all that the validation asks for, is recorded, and waits for its review. |
| Authorization.InferredReviewStands | apps/api/src/exoswarm/investigation/controller.py:1969-1993 | A review returned by the attempt loop attests to all that the validation asks for, and is recorded beside its proposal. |
| Interference.AdvanceAlike | apps/api/src/exoswarm/investigation/controller.py:580-602 | While no experiment is being chosen, an advance is identical for all answers of all inference clients, or ends the run with the same status, disposition, reason and evidence. |
| Driving.VerdictIsDeterministic | apps/api/src/exoswarm/investigation/hypotheses.py:40-46 | Two runs from the same baseline with any two behaviours of the models end with the same verdict, or pass through one and the same state in which the evidence holds no decisive code: a decisive baseline cannot be changed by a model, its timeouts or its budget. |
| Driving.BudgetSuffices | apps/api/src/exoswarm/investigation/runner.py:246-300 | From a cycle boundary the driver's own advance budget always suffices: it reaches a stop status; its no-progress and budget failures never fire. |
| Driving.DriveReachesStop | apps/api/src/exoswarm/investigation/runner.py:246-300 | From every durable state the driver never reports a missing progress, and with the advances the run needs it never runs out of them. |
| Driving.CoveringRuns | apps/api/src/exoswarm/investigation/tool_registry.py:151-164 | With a registry that can run every mandatory test first, the missing route after an already terminal result is never reached. |
| Driving.RegistryCovers | apps/api/src/exoswarm/investigation/tool_registry.py:139-183 | The shipped registry is one of these. |
| Driving.RunService.DriveRun | apps/api/src/exoswarm/investigation/runner.py:246-344 | The driving loop meets its recursive specification in every ending (stop, stall, budget, deadline within an advance, unexpected error), and leaves a good, grown and stopped run. |
| Driving.DecisiveBaselineDecides | apps/api/src/exoswarm/investigation/hypotheses.py:40-46 | When the mandatory evidence of a finished run holds a decisive code, every other behaviour of the models from the same baseline ends with the same status, disposition and ledger. |
| Driving.InitialIsAtRest | apps/api/src/exoswarm/investigation/controller.py:233-261 | A new run starts at a cycle boundary, so that BudgetSuffices speaks about it. |
| Driving.DriveKeeps | apps/api/src/exoswarm/investigation/runner.py:246-344 | Deadlines inside an advance and unexpected errors included, the driver leaves a good state that has grown from the one it was given, and in which the run has stopped. |
| Shortfall.ShortExactly | apps/api/src/exoswarm/investigation/runner.py:246-300 | With the shipped registry, from any durable state: some tools and some answers of the models use up the driver's own budget if and only if the state is short, which is read off the snapshot, the trace and the newest record; and from a short state tools that answer use it up whatever the models say. |
| Shortfall.SpentMeans | apps/api/src/exoswarm/investigation/runner.py:246-300 | With every registry and any tools and models, the budget is used up only from inside a step, not finalizing, when fewer advances are left than the run needs and the calls, the baseline and the experiments allow that many more actions. |
| Shortfall.ShortSpends | apps/api/src/exoswarm/investigation/runner.py:246-300 | With every registry that can run and repeat every mandatory tool and shares no test with an experiment, tools that answer use up the budget from every short state, for all answers of all models. |
| Shortfall.EarlyCrashFallsShort | apps/api/src/exoswarm/investigation/runner.py:249 | Every new run of two to four steps whose process dies right after the first step is charged is given up for lack of advances: the shortage is not confined to the last step. |
| Shortfall.TestsBounded | apps/api/src/exoswarm/investigation/controller.py:3016-3064 | At most four tests are ever completed, and four of them are the whole baseline. |
| Witnesses.ShippedReaches | apps/api/src/exoswarm/investigation/tool_registry.py:139-183 | With the shipped registry and tools that answer, every new run with room for one experiment has, whatever the models say in the baseline, a life into each window: into a stranded state from which some answers fail the next advance, and into a commit without its announcement, after which the next advance ends the run. |
| Witnesses.ProposalsStrand | apps/api/src/exoswarm/investigation/controller.py:762-785 | For every registry whose baseline can run and any experiment of it, every new run has a life into a stranded state, and answers that fail the next advance, whatever the models say in the baseline. |
| Witnesses.AnnouncementsAreLost | apps/api/src/exoswarm/investigation/controller.py:2855-2899 | Likewise a life into the commit of that experiment without its announcement, with its proposal, its review and its tool's answer in the state reached. |
| Witnesses.UnannouncedIsReached | apps/api/src/exoswarm/investigation/controller.py:2984-2997 | Where a second experiment can be paid after the first, that life leads on into an unannounced step for all answers, from which every advance ends the run without a call or a record. |
| Witnesses.NeverUnannounced | apps/api/src/exoswarm/investigation/tool_registry.py:139-183 | With the shipped registry no durable state is unannounced: its only supported experiment has no successor. |
| Witnesses.ShippedEnds | apps/api/src/exoswarm/investigation/controller.py:929-945 | So with the shipped registry the advance after a lost announcement ends the run. |
| LockReveal.LockGood | apps/api/src/exoswarm/security/result_lock.py:24-64 | A lock succeeds exactly on a ready or locked run and returns the receipt of the files, with the time, references, verdict and reason of the run it sealed; a repeated lock writes nothing; every crash point between its writes is good. |
| LockReveal.RevealGood | apps/api/src/exoswarm/security/catalog_gate.py:23-84 | A reveal before the lock changes nothing. A locked run shows its stored reveal, or else the provider's answer for its locked content and digest exactly if that is of this run and names this digest; what is shown is stored, and the run is then REVEALED. |
| LockReveal.AuthorityService.LockResult | apps/api/src/exoswarm/security/result_lock.py:24-64 | Writes result, digest, snapshot and event in this order as its specification says; from a good store it never fails, issues a receipt exactly for a ready or locked run, that of its files and of the verdict it seals, and writes nothing for a locked one. |
| LockReveal.AuthorityService.RevealCatalog | apps/api/src/exoswarm/security/catalog_gate.py:23-84 | Reads back or asks the provider, validates, and writes reveal, snapshot and event as its specification says; from a good store it never fails, shows nothing before the lock, and for a locked run shows the stored reveal or else exactly the provider's matching answer, which is then stored and the run revealed. |
| Controlling.Controller.Restart | apps/api/src/exoswarm/investigation/controller.py:263-271 | A new process reloads its memory from the store, whatever the old memory was. |
| Controlling.Controller.Terminate | apps/api/src/exoswarm/investigation/controller.py:3081-3141 | Fails the named execution alone, saves the terminal snapshot with its reason and emits its events; a legal termination keeps the store good and reaches its status. |
| Controlling.Controller.CommitResult | apps/api/src/exoswarm/investigation/controller.py:2779-2900 | Ledger, snapshot, provenance check and events in this order; a fitting result for the action that awaits it is committed without error. |
| Controlling.Controller.RecoverPrepared | apps/api/src/exoswarm/investigation/controller.py:3161-3308 | The recovery loop over the executions; it keeps the store good, never faults, and leaves no running tool unless it aborts. |
| Controlling.Controller.ExecuteAction | apps/api/src/exoswarm/investigation/controller.py:2291-2503 | The guards, the PREPARED snapshot, the invocation and the commit; a request that the status allows keeps the store good and is refused, aborted or performed. |
| Controlling.Controller.RecoverRoleCheckpoints | apps/api/src/exoswarm/investigation/controller.py:1164-1186 | The merging loop over the role records; it changes nothing but checkpoints, all of which then agree with the records. |
| Controlling.Controller.RunMandatoryCycle | apps/api/src/exoswarm/investigation/controller.py:580-602 | Runs one missing test or ends the run, and keeps the store good. |
| Controlling.Controller.RunSpecialistBriefing | apps/api/src/exoswarm/investigation/controller.py:606-684 | Writes the missing briefings in their durable commit order; changes nothing that the cycle relies on. |
| Controlling.Controller.DecideSkeptic | apps/api/src/exoswarm/investigation/controller.py:725-787 | Records a proposal and waits for its review exactly if its fields swear to what the validation asks for, or aborts; keeps the store good. |
| Controlling.Controller.ReviewProposal | apps/api/src/exoswarm/investigation/controller.py:789-848 | Records a review exactly if its fields attest to what the validation asks for, or aborts; keeps the store good and finds the verdict's node satisfied. |
| Controlling.Controller.ResolveCriticVerdict | apps/api/src/exoswarm/investigation/controller.py:851-892 | Resolves the verdict without an abort, and leaves the chosen node what it relies on. |
| Controlling.Controller.ExecuteApprovedExperiment | apps/api/src/exoswarm/investigation/controller.py:895-926 | Performs, refuses, or illegally requests the approved experiment, each under its exact condition. |
| Controlling.Controller.EvaluateCycleResult | apps/api/src/exoswarm/investigation/controller.py:929-945 | Evaluates the newest result without an abort or a fault. |
| Controlling.Controller.FinalizeCycle | apps/api/src/exoswarm/investigation/controller.py:948-1020 | Ends the run with the verdict that its codes and candidate give and its reason, or with insufficient evidence exactly if they give none; the Director's last word is on record in multi-agent mode. |
| Controlling.Controller.InvokeGraph | apps/api/src/exoswarm/agents/graph.py:134-176 | The walk over nodes and edges with its recursion limit: from a good store it never hits that limit, and fails only by the illegal transition or the missing edge, exactly as the advance does. |
| Controlling.Controller.AdvanceOnce | apps/api/src/exoswarm/investigation/controller.py:422-442 | One advance from the store alone; from a good store it has every guarantee of AdvanceSafe, and the store is good afterwards. |
| Controlling.Controller.FailDurableRun | apps/api/src/exoswarm/investigation/controller.py:332-359 | Gives the run up by a legal failure that fails the unfinished execution alone. |
| Controlling.Controller.TakeRoute | apps/api/src/exoswarm/investigation/controller.py:473-558 | Recovers checkpoints, charges a step if one is due, and chooses a route whose node finds what it relies on; in multi-agent mode roles without a record of this context come first. |
| Controlling.Controller.RunDirectorBriefing | apps/api/src/exoswarm/investigation/controller.py:687-722 | Writes the Director's briefing if it is missing; changes nothing that the cycle relies on. |
| Inference.ResumeShrinks | apps/api/src/exoswarm/investigation/controller.py:1504-1697 | Every reply brings a call closer to its end: the loop's termination measure. |
| Inference.DeriveSummary | apps/api/src/exoswarm/agents/inference_telemetry.py:16-87 | The deriving loop counts calls, errors and time-outs, valid first attempts, repairs per repairable decision and fallbacks per decision, over the records and the decisions they name. |
| Inference.FirstsAreKeys | apps/api/src/exoswarm/agents/inference_telemetry.py:37-44 | The collected first attempts are exactly one per live decision. |
| Inference.RatesAreRates | apps/api/src/exoswarm/agents/inference_telemetry.py:9-14 | Numerators never exceed denominators, and counts never exceed calls, when repairs have their causes. |
| Inference.StaleCopiesLoseCalls | apps/api/src/exoswarm/investigation/controller.py:1711-1719 | A charge made from a copy older than the store loses a call that was started: the copies taken after each await are needed. |
| Inference.HeldCopiesAreDropped | apps/api/src/exoswarm/investigation/controller.py:1520 | What follows an await is the same for every copy of the snapshot held across it. |
| Attempts.Session.Infer | apps/api/src/exoswarm/investigation/controller.py:1470-1697 | The attempt loop with its limits, one repair, retries and fallback does exactly what InferIs says with the client's replies. |
| Attempts.Session.FallbackOrAbort | apps/api/src/exoswarm/investigation/controller.py:1851-1927 | One call of the fallback exactly if it is allowed and a call is left, charged and recorded once; an answer has passed validation in the state of now, and without one the failure is the given one or the spent budget. |
| Attempts.InferIs | apps/api/src/exoswarm/investigation/controller.py:1504-1697 | For all replies of the clients: a call makes exactly the attempts that are due and have room, one repair after the first unusable reply and a retry of the same kind after each failure of the provider while one is left; it answers with the reply that validates in the context of now, asks the fallback exactly when the repair failed or the retries are used up, and otherwise aborts for its first unusable reply, the provider's failure, or the limit that left no room; calls, retries, failures and records are exactly those of these attempts. |
| Interleaving.InferIsBounded | apps/api/src/exoswarm/investigation/controller.py:1470-1697 | One call ends after at most two attempts and the retries that were left (its own retries, for an advisory call), charges at most one call more than its attempts (the fallback), stays within its own limit and the shared one, and returns only decisions that passed validation against the current context. |
| Interleaving.InterleavingIsSafe | apps/api/src/exoswarm/investigation/controller.py:605-651 | Every coroutine replaces the whole snapshot, from the copy that it read last. In every interleaving at awaits of any number of calls that copy is current whenever it replaces the store, so that no update is lost: calls equal attempts started and stay in the limit, every call is recorded or in flight, the stored summary is the one derived from all records, and each coroutine keeps its own bound. |
| Interleaving.SegmentShrinks | apps/api/src/exoswarm/investigation/controller.py:605-651 | Every segment of an unfinished coroutine reduces the work left in the whole, so that every interleaving ends. |
| Interleaving.RepairRateIsARate | apps/api/src/exoswarm/agents/inference_telemetry.py:45-56 | With clients whose status matches their error every repair follows an invalid or truncated primary of the same decision, so that no rate of a summary exceeds one. |
| PacketSize.FourPassesSuffice | apps/api/src/exoswarm/agents/context.py:447-463 | From every base length the fourth pass repeats the third, which is a number that measures itself. |
| PacketSize.ThreePassesFallShort | apps/api/src/exoswarm/agents/context.py:452 | Three passes are not always enough: a base length of 98. |
| PacketSize.FinalizePacket | apps/api/src/exoswarm/agents/context.py:447-463 | A packet under the ceiling records exactly its own serialized length and is never copied; finalizing fails if and only if the fixpoint is above the ceiling. The same loop finalizes role contexts. |
| PacketSize.LeastFixpoint | apps/api/src/exoswarm/agents/role_context.py:105-123 | The passes climb, never beyond any self-measuring size, and measure themselves from the third on: they reach the least such size. |
| Packing.Assemble | apps/api/src/exoswarm/agents/context.py:466-634 | The trimming and packing loops, against their specification, with the rejected limits. |
| Packing.PacketsArePacked | apps/api/src/exoswarm/agents/context.py:507-634 | Every packet fits, contains all required evidence in ledger order, has at most max(required, limit) records, keeps a prefix of the distinct hypotheses no longer prefix of which fits, shows otherwise only the newest records that the free slots reach, and could take none of these that it left out. |
| Packing.NothingIsTrimmedAtTheCeiling | apps/api/src/exoswarm/agents/context.py:216 | With the default limit, which equals the ceiling of the size field, no hypothesis and no record that the free slots reach is ever left out: what does not fit fails. |
| Packing.EvidenceIsLedgerOrdered | apps/api/src/exoswarm/agents/context.py:388-400 | In every durable state the ordering of evidence returns the ledger as it is. |
| Packing.RequiredMeans | apps/api/src/exoswarm/agents/context.py:403-416 | Always shown are exactly the records that a candidate quotes and those with a code that the rules know. |
| Packing.DedupeIs | apps/api/src/exoswarm/agents/context.py:523 | The hypotheses shown are all, each once, in the order in which they appear. |
| Packing.TriedAre | apps/api/src/exoswarm/agents/context.py:616-634 | Tried are exactly the optional records that the free slots reach, counted from the newest. |
| Packing.TrimFails | apps/api/src/exoswarm/agents/context.py:611-615 | Assembling fails as too large exactly if no number of hypotheses is small enough and none runs into the ceiling. |
| Decimation.BoundedSeries | apps/api/src/exoswarm/science/plot_projection.py:54-74 | Length mismatch; short series unchanged; otherwise the points at an ordered selection that keeps both ends and brackets every point within its bucket. It fails never for a limit of four or more, and below exactly by the input: always for less than two, for two if an extreme is no end, for three if the extremes are two points and none is an end. |
| Decimation.BucketsPartition | apps/api/src/exoswarm/science/plot_projection.py:61-65 | Buckets follow each other without gap or overlap, none is empty, together they cover the series, and each begins at the floor of its share. |
| Decimation.ExtremesAreKept | apps/api/src/exoswarm/science/plot_projection.py:66-70 | The least and greatest values of the series are kept. |
| Decimation.SmallLimitsOverflow | apps/api/src/exoswarm/science/plot_projection.py:72-73 | With a limit of three a series of four points is refused. |
| OddEven.PhaseIsCentered | apps/api/src/exoswarm/science/candidate_artifact.py:266-269 | The phase distance lies in [-P/2, P/2) and differs from the time since the epoch by whole periods. |
| OddEven.InTransitTimes | apps/api/src/exoswarm/science/odd_even.py:67-73 | With a box shorter than the period an in-transit time is its rounded transit's centre plus the phase distance. |
| OddEven.TransitNumberIsExact | apps/api/src/exoswarm/science/odd_even.py:71-73 | The rounded number is exact for every time but one exactly half a period away. |
| OddEven.FullPeriodMiscounts | apps/api/src/exoswarm/science/candidate_artifact.py:212 | Without the filter on durations the equation fails: a box as long as the period. |
| OddEven.ParitiesPartition | apps/api/src/exoswarm/science/odd_even.py:74-76 | The samples whose phase lies in the box fall into the odd and the even transits without overlap, and each is weighed in its parity once. |
| OddEven.DepthFor | apps/api/src/exoswarm/science/odd_even.py:93-118 | The average of per-event averages equals the single pooled inverse-variance average, its formal variance the pooled one, its count the samples of the parity, and its uncertainty the larger of the formal one and the squared standard error of the event depths. |
| OddEven.CompareDepths | apps/api/src/exoswarm/science/odd_even.py:67-136 | Refused exactly with fewer than two observed transits of a parity; otherwise each depth is the pooled one of the samples in transits of its parity, and the counts are those of these samples. |
| OddEven.InTransitMeans | apps/api/src/exoswarm/science/odd_even.py:70 | A time is in transit exactly if it lies within half a box of the centre of some transit. |
| OddEven.WeightsAre | apps/api/src/exoswarm/science/odd_even.py:90-101 | The samples in transit are weighed one by one, in their order, each for its own transit and by the inverse of its squared error. |
| OddEven.PooledMeans | apps/api/src/exoswarm/science/odd_even.py:101-108 | A pooled depth is the mean, by weight, of what the samples lack below unity. |
| OddEven.StandardErrorMeans | apps/api/src/exoswarm/science/odd_even.py:110 | The empirical error is the standard error of the event depths with one degree of freedom lost. |
| Streaming.StreamEvents | apps/api/src/exoswarm/investigation/runner.py:219-234 | What is yielded is what the last poll holds after the offset; the stream stops exactly after a poll followed by an idle inspection. |
| Streaming.DeliveryIsGapless | apps/web/src/lib/events.ts:43-81 | For any growth of the trace and any number of reconnects replayed from the offset, what is accepted is exactly a gapless beginning of what follows the offset, at least as long as any connection delivered. |
| Streaming.HoldsMeans | apps/web/src/lib/events.ts:57-69 | Accepted events carry offset+1, offset+2, and so on. |
| Streaming.AnyDelivery | apps/web/src/lib/events.ts:57-69 | Whatever is delivered, in any order and however often: exactly the malformed and foreign messages are reported, only events of the own run after the offset are passed on, none twice, and each of them unless its id or sequence was known. |
| Streaming.NewInbox | apps/web/src/lib/events.ts:43-56 | A new subscription is such an inbox, from which AnyDelivery starts. |

## Left out

- Identifiers: random ids are idealised (the n-th execution has action id n, a decision id is a string of the client's choosing), and SHA-256 is an injective constructor.
- Torn writes: each file append or replacement is atomic, and one process writes a run at a time; leases, file locks, the wall clock and the thread and subprocess isolation of tools are not modelled.
- The inference summary inside the snapshot is modelled in `Inference` and `Interleaving`, not in the snapshot of the cycle machine; there a summary save is part of recording an attempt.
- The traffic of inference calls enters the cycle machine as an arbitrary log of charges, records and retries, which the specialists may interleave in any way; which logs the attempt loop produces is proved separately.
- Failures: prose, messages and per-record failure reasons are dropped; failure kinds and terminal reasons are kept.
- Staging and promotion of tool artifacts: a failure of either is a tool that raises.
- The content of prompts and the assembly of a context inside the nodes: assembling is taken to succeed there, and is modelled by itself in `Packing` with the packet's length as a parameter.
- Packing.PacketsArePacked: assumes that a larger selection never makes a shorter packet, which a JSON array of records satisfies.
- Evidence ids are not ordered, so that sorting unreferenced records is modelled only for the at most one record that can be unreferenced.
- Floating point: science runs over exact reals, and uncertainties are represented by their squares; box least squares and the significance test of the odd/even comparison are not part of this model.
- Streaming.StreamEvents: says nothing about events appended after the last poll, because the code inspects the run after polling and may return on that stale poll.
- The reserve of two model calls is checked once, before the first attempt of an optional role, and nothing more is claimed about it.
- Shortfall.SpentMeans: is only the necessary half for registries other than the shipped one, because an experiment that may be repeated with other parameters can use up advances after the baseline; the sufficient half is `Shortfall.ShortSpends`.
- Cancellation inside an advance is modelled as a jump to any of its durable states, which the environment chooses.
- Several runs, the start request with its idempotency key, cancellation by service shutdown, and the runner's status records.
- `record_tool_result`, evaluation and acquisition scripts, content scans, identity blinding, HTTP routes, SSE text, the web interface and plots: presentation, scaffolding or string matching.
- The budget payloads of events, and which of several agent events is emitted: events keep their sequence, step and the kinds that routing reads.
