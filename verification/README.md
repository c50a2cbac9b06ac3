# Models of an agent run and of its evaluation

A Dafny 4.11 project with models of the most intricate parts of an agent library written in Go: the
agent run as a protocol, interrupts and approvals, the repair of streamed JSON, two structural
checkers, and the comparison and gating of evaluations. `dafny verify dfyconfig.toml` checks all of it.

## How it is built

- What the source changes in place under a lock is a class with the same fields. Every critical
  section is one method, and a `Step` method lets any number of them follow each other in any order,
  so the `Replay`, `Run` and `Interfere` methods speak of every interleaving. Pointers compared for
  identity (handles, claims, postings) are indices in the order things were created.
- Everything outside a module is a parameter the results quantify over: the provider, the tools, hooks,
  guardrails, the clock, other goroutines, and which appends fail.
- Loops of the source are loops, proved against functions and predicates; what is promised is then
  proved of those. Numbers of an evaluation are reals.

| files | what they model |
|---|---|
| JsonGrammar, JsonScanner, JsonReader, PartialJson | RFC 8259 sections 2 to 7 as concrete syntax trees, the validity test as a pushdown scanner, and the completion and extraction loops over it |
| Transcript, Overflow, AgentRun | a branch as turns, results and notes; the compaction state; the run loop with every exit |
| Inbox, Spawn, RunGuard, AgentSubmit, Stop | the state shared between a run, its clients, its background children and other runs |
| InterruptRouter, Approval, Deadline | decisions with expiry and retries, approvals rebuilt from a branch, the pausable clock |
| ToolPairs, Session | the pairing check of delegated histories, and the check of a stored tree |
| Ordering, EvalResults, Gate, Compare, Comparison, CaseDiffs, CaseIndex, SetupDiff | evaluation results, gates, comparisons, file numbers, and setup differences |

## Where the code does not do what one would expect

Each is proved, with the exact condition under which the expected property holds.

- `Undelivered` misses the rest of a batch that was cut by a failed admission or append
  (Inbox.Stream.Undelivered, Inbox.CutBatch), although its comment calls it all that was accepted and never appended.
- A deadline paused after it was due, but before its timer fired, never fires
  (Deadline.PausableDeadline.Pause, Deadline.LatePauseNeverFires, Deadline.NeverFired).
- A turn that uses one call ID twice is answered in order on the branch, but a history with it does not
  pass the pairing check (ToolPairs.ParentHistoryIsLegal, ToolPairs.RepeatedIdIsRefused).
- A stopped run that cannot record the results of an open turn, and then can record the stop, leaves
  that turn unanswered in the middle of the branch (AgentRun.Run.WrapUp, AgentRun.StopInTools).
- A case with only a value on one arm and only a verdict on the other is reported as only_base both
  ways (CaseDiffs.DiffSwaps, CaseDiffs.ValueAgainstVerdict).
- A score marked inconclusive without an error gets no stamp, but is still held against the threshold
  (Gate.LoopsDisagreeOn, Gate.RealWhenStampedFalse, Gate.UnexplainedScoreFails).
- A message that takes the token limit away while a turn is under pressure lifts the bound on compactions,
  and with it the bound on the loop; no other change of limits does (Overflow.Replay,
  Overflow.LimitRemovedUnderPressure, AgentRun.RunFresh, AgentRun.LiftedLimitRunsOn).
- A delivered reply sent again under its key is unknown once the router has remembered 1024 answers and
  another wait ends (InterruptRouter.SendTwice, InterruptRouter.Forgets).
- A compaction whose snapshot cannot be written loses an approval state that the copied records do not
  give (Approval.Conversation.Compact, Approval.SnapshotLost).
- A claim extended after its release holds the new branch for good, and that is the only way a branch
  stays held after its run (RunGuard.Replay, RunGuard.LateGrantIsNeverFreed). The run loop extends its
  claim only before the release.

## Model

| member | source | states |
|---|---|---|
| JsonReader.ValidIsGrammar | agent/output.go:287-287 | the validity test, modelled as a pushdown scanner, accepts exactly the texts of the RFC 8259 grammar given as concrete syntax trees, in both directions |
| JsonScanner.GrammarIsAccepted | agent/output.go:287-287 | every text of the grammar, spaces included, takes the scanner to an accepting state |
| PartialJson.BalancedEnd | agent/output.go:310-338 | whatever surrounds an array or object, the loop returns exactly its end; any other answer is -1 or just past a closing bracket |
| PartialJson.BalancedOnContainer | agent/output.go:310-338 | for every array or object, at any place of any text, the bracket count first returns to zero at its last character, brackets inside strings notwithstanding |
| PartialJson.ExtractScan | agent/output.go:295-307 | the scanning phase finds the leftmost array or object of the text, and fails exactly when the text has none |
| PartialJson.ProseAround | agent/output.go:295-307 | around one array or object, prose without an opening bracket in front and anything behind leave that value as the one extracted |
| PartialJson.ScanText | agent/output.go:346-383 | the scanning loop computes the stack of closers, the string state and the safe cuts of the whole text |
| PartialJson.CutsOfPrefix | agent/output.go:366-383 | on every prefix of an array or object there is a safe cut, and every safe cut closes to JSON |
| PartialJson.LastCutKeeps | agent/output.go:366-401 | the last safe cut alone keeps everything through the last bracket, and up to the last comma, outside strings |
| PartialJson.FullOfPrefix | agent/output.go:384-394 | closing the open string and brackets keeps the same, dropping at most a backslash that escapes nothing yet |
| PartialJson.FullOfWhole | agent/output.go:384-394 | on a complete text nothing is added or removed |
| PartialJson.FullIsValid | agent/output.go:384-394 | closing the open string and brackets of a prefix gives JSON exactly when it ends at a complete value or inside a value string outside a \u escape, and the text that results is spelled out: nothing is added but the quote and the closers |
| PartialJson.CompleteJson | agent/output.go:346-402 | what it returns is JSON; of every non-empty prefix of an array or object it returns exactly the whole prefix closed, when that ends behind a complete value or inside a string that is one, the same without a last backslash that escapes nothing yet, and otherwise the part up to the last place a value can end, closed, and only then text is dropped; on the whole text it returns the text; it fails only when neither the closed text nor any cut is JSON |
| Overflow.CheckToolPairing | agent/types/compact_strategy.go:617-635 | accepts a history exactly when every result has an assistant call somewhere before it |
| Transcript.AppendAnswers | agent/agent.go:2142-2154 | answering the open last turn, its calls in order, makes the branch paired again |
| Transcript.PairedIsSettled | agent/agent.go:1553-1942 | a branch that is strictly paired from its start meets the weaker rule for compacted histories too, so it is one a run can start on |
| Overflow.OverflowState.SpentIsBounded | agent/overflow.go:19-183 | whatever limits each step is given, at most eight compactions happen between two successful calls, besides those made under pressure when the token limit was gone |
| Overflow.OverflowState.TurnSucceeded | agent/overflow.go:55-65 | a successful call clears every compaction counter and keeps a positive reported prompt size |
| Overflow.OverflowState.RunCompaction | agent/overflow.go:193-245 | a rewritten history is used exactly when every result in it has its call; only then does the count grow |
| Overflow.OverflowState.CompactIfNeeded | agent/overflow.go:113-155 | when a compaction is made, exactly: without a limit whenever a compactor is configured; with one, when either measure of the input is over it or one was asked for, unless the last one did not make the input smaller or five were made; every other turn goes out now; a compaction escapes the bound exactly when it is made under pressure with the limit gone |
| Overflow.OverflowState.RecoverOverflow | agent/overflow.go:162-183 | only a context-length error is retried, exactly when the compaction gives a history that passes the check, and at most three times a turn |
| Overflow.Replay | agent/overflow.go:19-183 | over every order of steps and every change of limits, at most eight compactions happen between successful calls when none is asked for under pressure with the token limit gone |
| Overflow.LimitRemovedUnderPressure | agent/overflow.go:113-155 | the condition cannot be dropped: from any point where it fails, every further history is compacted again, any number of times |
| Overflow.AnyNumberOfCompactions | agent/overflow.go:113-155 | and such a point is reached from the start: for every n, n + 1 compactions without a call between them |
| AgentRun.LoopGuards.Repeated | agent/forcing.go:175-187 | counts identical call lists in a row and trips exactly when a positive limit is exceeded |
| AgentRun.LoopGuards.RecordResults | agent/forcing.go:193-216 | counts turns in a row in which some call failed and none succeeded; a success starts again, a turn of refused calls leaves the count alone; trips at the limit, which is two unless set |
| AgentRun.ExecuteTools | agent/agent.go:2605-2765 | every call gets one result under its own ID, in order, whatever becomes of it |
| AgentRun.SkipToolCalls | agent/forcing.go:235-242 | calls that are not run get an error result each, in order |
| AgentRun.Run.PersistToolResults | agent/agent.go:2142-2154 | a successful append answers exactly the open calls and settles the branch; a failed one leaves the turn open |
| AgentRun.Run.AnswerOpenToolCalls | agent/agent.go:1394-1419 | a branch without an open turn is untouched; an open one is settled exactly when the append succeeds |
| AgentRun.Run.Deliver | agent/submit.go:304-321 | of the messages that arrived one note each is appended, in order, until an append fails; what was taken is counted off, and without a failure all of it is on the branch |
| AgentRun.Run.InjectAtSafePoint | agent/submit.go:328-344 | the branch grows by exactly the submissions taken and then the child results taken, unless an append fails; step limits start again exactly when one of those taken interrupts, and else nothing changes |
| AgentRun.Run.ResumeAtFinish | agent/submit.go:367-379 | where the run would end, what the first wait brings, or else what is queued, is appended before it goes on; it ends exactly when nothing arrives |
| AgentRun.Run.Finish | agent/submit.go:367-379 | the run ends naturally exactly when nothing arrives, with the branch unchanged; otherwise what arrived is on the branch, one note at least, and a new user turn starts with fresh limits |
| AgentRun.Run.CommitPartial | agent/submit.go:386-403 | of a turn that was cut, what it said is kept exactly when it said something, and calls never are |
| AgentRun.Run.CommitStopped | agent/stop.go:227-254 | a stopped turn commits its text exactly when it has some and the guardrail lets it through, and no call |
| AgentRun.Run.HandleTruncation | agent/forcing.go:350-376 | a turn the output limit cut commits no call; one that had calls ends the run; otherwise it is continued exactly while continuations are left, with a note unless the model is prefilled, and then ends the user turn |
| AgentRun.Run.FinishAtLimit | agent/forcing.go:247-308 | at a limit the run ends with the limit's error and an untouched branch, or, when one last answer is forced, with that answer, which has no calls, and with an error of its own for each way that call can fail |
| AgentRun.Run.CheckLimits | agent/agent.go:1602-1633 | the wrap-up note goes in exactly when the steps set for it are used, work is pending and it has not gone in this user turn; at the step limit a run without pending work ends naturally, and one with it meets the limit; a call goes out only below it |
| AgentRun.Run.MoveTo | agent/agent.go:1646-1665 | after a compaction the branch is the rewritten history, its record, and the approval state when there is any, and paired from there on |
| AgentRun.Run.Compact | agent/agent.go:1646-1665 | a compaction moves the run and counts against the bound, unless it was made under pressure with the token limit gone |
| AgentRun.Run.Recover | agent/agent.go:1732-1756 | a failed call is made again exactly on a context-length error that may be and can be answered by a compaction, and the branch is then the rewritten history with its record |
| AgentRun.Run.Call | agent/agent.go:1680-1756 | every way a call ends: a completed one counts as a turn and goes on, an interrupted one counts and keeps what was said, a retry is a compaction, a stop keeps the text, and other errors end the run; the branch stays settled |
| AgentRun.Run.RepairOutput | agent/agent.go:1848-1861 | an answer that does not match the schema is sent back, a limited number of times |
| AgentRun.Run.RecordTools | agent/agent.go:1892-1916 | results are recorded before a stopped or failed run ends; only a suspended run keeps its calls open, and nothing is appended then |
| AgentRun.Run.RunTools | agent/agent.go:1876-1942 | a turn's calls are all answered before anything else is appended, except on a suspension, a panic or a failed append; calls repeated too often are answered without being run, and trip the guard |
| AgentRun.Run.AfterResults | agent/agent.go:1917-1942 | the run ends here exactly when a call to a stopping tool succeeded; otherwise the guards count exactly these outcomes, and a handoff is noted |
| AgentRun.Run.AfterAnswer | agent/agent.go:1848-1874 | an answer that fails the schema is sent back until two repairs are used; any other ends the run exactly when nothing arrives |
| AgentRun.Run.CommitTurn | agent/agent.go:1835-1942 | a complete turn is committed as it is, and its calls answered; an undisturbed answer ends the run Finished with the answer last on the branch, exactly when nothing arrives |
| AgentRun.Run.AskAgain | agent/agent.go:1786-1818 | the schema-constrained follow-up: a failed one ends the run, a truncated one is handled as such, a stop commits its text, and a complete one takes the place of the answer |
| AgentRun.Run.HandleReply | agent/agent.go:1763-1942 | truncation, the schema follow-up, an empty reply and a full turn: what each comes to when nothing interferes, and that all keep the pairing |
| AgentRun.Run.Iterate | agent/agent.go:1553-1942 | every loop body that goes on leaves the branch settled and, under a positive cap, strictly lowers a natural-number measure |
| AgentRun.Run.Loop | agent/agent.go:1553-1942 | every exit leaves the branch settled, except a panic, a suspension or a failed append, which leave at most the last turn open; the step-limit error comes only with work pending at the cap; and a script of turns that only answer or use tools runs until the first answer or the first limit, with every turn up to there on the branch |
| AgentRun.Run.WrapUp | agent/stop.go:261-282 | after an error under a stop the open calls are answered and the stop is recorded; the branch ends up broken exactly when recording the results failed and recording the stop did not |
| AgentRun.Run.Execute | agent/agent.go:1377-1389 | over every script: without failed appends or a suspension the branch is paired at the end; with one failed append at most its last turn is open; only a stopped run with two failed appends can leave a call unanswered inside it |
| AgentRun.RecordOnOpenTurn | agent/stop.go:272-277 | a stop record behind an unanswered turn is what breaks a branch |
| AgentRun.RunFresh | agent/agent.go:1500-1942 | a run can start on any settled branch, so on any that a run left settled; what arrived and is no longer out is on its branch, unless an append failed; an ordinary script is run to its first answer or limit; under a positive cap it takes at most (arrivals + 1) times (9 times the cap, plus 2), plus 8, loop bodies, and one more for each compaction made under pressure with the token limit gone, of which there is none when no turn with a limit is followed by one without |
| AgentRun.LiftedLimitRunsOn | agent/agent.go:1553-1665 | that condition cannot be dropped: under any cap, from any settled branch, there are runs of any length that make no call |
| AgentRun.StopInTools | agent/stop.go:261-282 | a stop during the tools of the first turn breaks the branch exactly when the turn was appended, its results could not be, twice, and the stop record could |
| AgentRun.BrokenBranch | agent/stop.go:272-277 | such a run, with one call and two failing appends |
| Inbox.Stream.Submit | agent/submit.go:115-145 | the error for each bad submission, and otherwise one more pending message whose acknowledgement is sent or left to the run |
| Inbox.Stream.BeginTurn | agent/submit.go:215-231 | a call that starts with an interrupting message pending is cancelled at once, for the first such message |
| Inbox.Stream.EndTurn | agent/submit.go:234-244 | names the message that cancelled the call, which is still pending, exactly when the call was cancelled |
| Inbox.Stream.Take | agent/submit.go:250-274 | a safe point takes exactly the messages that do not wait for the end; the end takes all, and closes on none |
| Inbox.Stream.TakeOpen | agent/submit.go:278-288 | takes everything and does not close |
| Inbox.Stream.BeginFlush | agent/submit.go:160-168 | the run takes over every waiting acknowledgement, exactly once |
| Inbox.Stream.SendAck | agent/submit.go:160-171 | one acknowledgement is sent, or dropped once the context is done |
| Inbox.Stream.Inject | agent/submit.go:304-321 | the next message of the batch is appended, and reported after its acknowledgement; a failure loses exactly the rest of the batch |
| Inbox.Stream.Undelivered | agent/submit.go:174-189 | what it returns is everything accepted and not appended exactly when no batch was cut by a failed admission or append; the comment in the source promises it without that condition |
| Inbox.CutAtSafePoint | agent/submit.go:246-321 | a safe point whose first append fails loses what it took, and nothing else |
| Inbox.CutBatch | agent/submit.go:174-189 | so any accepted and acknowledged message can be neither on the branch nor among what is reported undelivered |
| Inbox.Stream.ExactlyOnce | agent/submit.go:115-321 | an accepted message is in exactly one of pending, the batch, the branch and a cut batch, once |
| Inbox.SplitStep | agent/submit.go:264-273 | taking out the messages that join now keeps submission order but for the messages that queue |
| Inbox.Replay | agent/submit.go:115-321 | over every interleaving: one place each, acknowledgement before report while the context is live, order kept, and a natural finish leaves nothing pending and the inbox closed |
| Spawn.Registry.Add | agent/spawn.go:173-184 | a new running handle, last in start order |
| Spawn.Registry.RecordDelegation | agent/spawn.go:213-227 | a delegation is kept as delivered, unless its ID is known |
| Spawn.Registry.SetResult | agent/spawn.go:187-190 | the first step of a child's end changes its status alone |
| Spawn.Registry.Record | agent/spawn.go:191-196 | the second lists the child once, counts it off and closes the channel waiters hold |
| Spawn.Registry.Await | agent/subagent_tools.go:155-169 | an await that is not cancelled marks the result delivered, and owns it exactly when nobody had it before |
| Spawn.Registry.Cancel | agent/subagent_tools.go:186-205 | a cancel gives up the result exactly when the child still runs |
| Spawn.Registry.Take | agent/spawn.go:254-261 | the run takes the whole list |
| Spawn.Registry.MarkNext | agent/spawn.go:244-270 | the run owns a result exactly when nobody had it before, and appends only those |
| Spawn.Registry.Inject | agent/spawn.go:474-484 | results are appended in completion order, and a failed append leaves the rest |
| Spawn.Registry.Outstanding | agent/spawn.go:273-291 | false only when no child runs and every finished result is delivered; between safe points every child has then finished and its result is on the branch exactly when the run had it first |
| Spawn.Registry.NothingOutstanding | agent/submit.go:367-373 | the same, as a fact about every reachable state |
| Spawn.Registry.CheckAndWait | agent/spawn.go:295-318 | a round of the wait blocks on the open channel exactly when there is nothing to take and something to wait for |
| Spawn.Registry.WokenWhenReady | agent/spawn.go:295-318 | no wake-up is missed: a blocked run that has something to do has a closed channel |
| Spawn.Registry.AppendedOnce | agent/spawn.go:254-270 | a result is on the branch at most once, and only if the run had it first |
| Spawn.Step | agent/spawn.go:173-318 | a child's status changes only at its end, to the one that its error gives; the first owner of a result stays its owner; the branch only grows |
| Spawn.Replay | agent/spawn.go:173-318 | over every interleaving, a child's status shows from its first end on how it ended, completed only without an error; and no result that an await returned or a cancel gave up first ever reaches the branch |
| RunGuard.Guard.NewClaim | agent/runguard.go:61-73 | granted exactly when neither the tree nor the branch is held |
| RunGuard.Guard.Add | agent/runguard.go:77-111 | a claim grows by a free branch, one it has is no news, and one held by another run is refused; a branch becomes stranded, held for a released claim, exactly when it is free and the claim it is granted to has been released |
| RunGuard.Guard.Release | agent/runguard.go:113-134 | frees every branch of the claim, those added later too, and its streams; a second time it does nothing |
| RunGuard.Guard.Holder | agent/runguard.go:139-149 | whether the branch is held, and the stream of the one claim that lists it, which is live unless the branch is stranded |
| RunGuard.Guard.ClaimTree | agent/runguard.go:154-164 | granted exactly when nobody holds the tree or any branch of it |
| RunGuard.Guard.ReleaseTree | agent/runguard.go:163-170 | frees the tree once |
| RunGuard.Guard.OneHolder | agent/runguard.go:22-134 | in every reachable state no branch has two live holders |
| RunGuard.Guard.TreeClaimIsAlone | agent/runguard.go:61-170 | a tree claim never coexists with a claim on one of its branches, or with another on the tree |
| RunGuard.Guard.StrandedIsHeld | agent/runguard.go:112-134 | a stranded branch is held |
| RunGuard.Step | agent/runguard.go:61-170 | every step keeps what is stranded, and strands a branch exactly when it grants a free one to a released claim |
| RunGuard.Continue | agent/runguard.go:61-170 | so over every interleaving from any point a stranded branch stays held |
| RunGuard.Replay | agent/runguard.go:61-170 | over every interleaving from the start, every held branch belongs to a live claim exactly when no released claim was granted a free branch |
| RunGuard.LateGrantIsNeverFreed | agent/runguard.go:77-134 | a claim that is released and then extended: whatever follows, no run is granted that branch again |
| AgentSubmit.Host.Submit | agent/submit.go:548-592 | whatever other runs do meanwhile, success hands the message to exactly one run, once, and that run holds the branch at that moment; a refusal hands it to none; and each refusal has its reason |
| AgentSubmit.Host.TryOnce | agent/submit.go:559-592 | a round on a free branch starts a run; undisturbed, one on a branch with an open inbox hands the message over, one on a branch held otherwise is refused, and only a run released just then leads to another round |
| AgentSubmit.Host.PassOn | agent/submit.go:577-592 | an open inbox gets the message; a closed one is waited for until its run is released, or the caller gives up |
| AgentSubmit.Host.Step | agent/agent.go:1297-1360 | other runs start, move, close and end without touching a message that is not theirs; an inbox closes before its claim is released |
| InterruptRouter.Router.Post | agent/interrupt_router.go:59-84 | refuses no ID, an expired interrupt and a pending ID; otherwise a fresh channel, and what was remembered of the ID is forgotten |
| InterruptRouter.Router.Fire | agent/interrupt_router.go:87-103 | a timer closes its own posting while that is pending and unanswered, and otherwise changes nothing, however late it fires |
| InterruptRouter.Router.Answer | agent/interrupt_router.go:110-148 | delivered exactly to a pending, unanswered, unexpired posting; a same-key repeat succeeds without effect, another is resolved, and late or unknown ones say so |
| InterruptRouter.Router.Withdraw | agent/interrupt_router.go:180-200 | the posting leaves the table, and the key of an answer is remembered |
| InterruptRouter.Run | agent/interrupt_router.go:59-200 | over every history a channel gets at most one reply or is closed, never both, nothing is undone, replies come from replies under that ID, and what is remembered stays within 1024 |
| InterruptRouter.ConsistentIsSound | agent/interrupt_router.go:28-45 | pending, answered and expired IDs are disjoint in every reachable state |
| InterruptRouter.SendTwice | agent/interrupt_router.go:105-131 | a delivered reply sent again changes nothing after any history that does not post its ID anew, and succeeds exactly while its non-empty key is remembered, which is so while the answers remembered before it and the waits that end since are 1024 at most; the comment in the source promises it without that condition |
| InterruptRouter.Forgets | agent/interrupt_router.go:193-199 | and beyond that it can fail: after 1025 answered interrupts the first reply, sent again, is unknown |
| InterruptRouter.ReplyDecision | agent/interrupt.go:152-165 | a reply approves exactly when it says so or carries an answer |
| InterruptRouter.FirstDecides | agent/interrupt_router.go:87-148 | what becomes of a posting is what the first event that concerns it makes of it |
| InterruptRouter.EscalatedIsOneUp | agent/interrupt.go:136-148 | an escalated interrupt loses the last step of its path, has the whole time to live from now on, or no deadline, and denies when it lapses |
| InterruptRouter.WaitInterrupt | agent/interrupt.go:90-148 | the verdict, exactly: the first event that concerns the posting decides; a reply in time is obeyed whichever it is, and nothing else approves; a cancelled wait and an unposted interrupt are rejected as such; one that lapsed is posted once more, one level up with the whole time again, exactly when its policy says so and there is a level, and is refused otherwise; a decided interrupt is withdrawn |
| InterruptRouter.WaitFor | agent/interrupt.go:95-118 | a posting is left in the table only while nothing has decided it, and its channel shows what did |
| InterruptRouter.ReplyInTime | agent/interrupt.go:107-111 | so a reply before the deadline and before anything else is the decision, approval or refusal |
| Approval.AnyOrder | agent/approval_policy.go:89-133 | any two orders of the same records give equal counts and the same multiset of grants |
| Approval.SimilarDecideAlike | agent/approval_policy.go:181-203 | states that differ in the order of grants give every call the same outcome |
| Approval.CountsAreRecords | agent/approval_policy.go:111-133 | over any records the counts of a tool grow by its denials, and by its approvals with or without a grant |
| Approval.LimitIsDenials | agent/approval_policy.go:174-178 | so from a fresh state a tool is at its limit exactly after that many denials |
| Approval.GrantFrom | agent/approval_policy.go:283-293 | a grant is created exactly for a valid, lasting request on a tool that is not destructive, and covers exactly the calls that were asked for, until exactly the time that was asked for |
| Approval.ApprovalState.Decide | agent/approval_policy.go:181-203 | the denial limit comes first, destructive calls always ask, and of the grants the newest that covers the call is named |
| Approval.ApprovalState.Settle | agent/approval_policy.go:236-278 | the records written, exactly, and the state after a decision is their fold; only an asked call changes counts; a denial count never falls |
| Approval.RefuseAlways | agent/approval_policy.go:181-278 | a tool refused every time is asked for exactly as often as the limit says |
| Approval.ApproveAlways | agent/approval_policy.go:181-278 | a writing tool approved every time is asked for exactly as often as the ramp says, and any other tool every time |
| Approval.GrantLasts | agent/approval_policy.go:181-293 | a call that a grant reaches is approved under it before the time is over, and afterwards only under an older grant or by the ramp |
| Approval.Conversation.constructor | agent/approval_policy.go:89-103 | a run starts from the fold of its branch |
| Approval.Conversation.RunTurn | agent/agent.go:2142-2154 | calls decided in any interleaving and recorded in request order leave a branch whose fold is the live state up to grant order; one record for each outcome that somebody decided; a tool at the denial limit stays there |
| Approval.EmptyMeansInert | agent/approval_policy.go:137-142 | an empty state means that the branch holds only records that never change it |
| Approval.Conversation.Compact | agent/approval_policy.go:137-166 | whatever a compaction copied, the new branch folds to the live state exactly when the snapshot was written, the state was empty, or the copied records give it anyway |
| Approval.SnapshotLost | agent/approval_policy.go:155-164 | a state that is lost: one record, nothing copied, and no snapshot |
| ToolPairs.CheckToolPairs | agent/subagent_context.go:244-295 | accepts exactly the histories in which every turn's calls are answered once each before the next turn or the end and no other result stands; the error names a call or a result of the history |
| ToolPairs.PassesIsLegal | agent/subagent_context.go:244-295 | the open-call automaton and the declarative rule are the same, for every history and every set of open calls |
| ToolPairs.ParentHistory | agent/subagent_context.go:178-209 | the loops drop metadata, the root prompt, the delegating turn, thinking and emptied messages, in that order |
| ToolPairs.ParentHistorySays | agent/subagent_context.go:178-209 | what is left is, part by part and in order, what was said after the root prompt and before the delegating turn, but for metadata and for what assistants thought |
| ToolPairs.ParentHistoryIsLegal | agent/subagent_context.go:178-209 | for a paired branch that ends in the delegating turn, the history passes the check exactly when no answered turn uses a call ID twice |
| ToolPairs.RepeatedIdIsRefused | agent/subagent_context.go:244-295 | a paired branch whose turn uses one ID for two calls is refused |
| ToolPairs.MappedStaysPaired | agent/agent.go:923-989 | stripping that spares calls and results keeps a history paired |
| ToolPairs.TextMessagesOnly | agent/subagent_context.go:66-93 | keeps the text of user and assistant messages, in order |
| ToolPairs.TextOnlySays | agent/subagent_context.go:66-93 | what is left is, in order, every text of users and assistants and nothing else |
| ToolPairs.TextOnlyIsLegal | agent/subagent_context.go:60-93 | every such selection is legal, has only text, and no empty message |
| Session.ValidateLoadedTree | agent/session.go:76-122 | ends on every node table, cyclic ones too, and accepts exactly those in which the children of every reachable node are listed once, name it as parent and are not the root, and every tip and checkpoint is reachable |
| Session.OneWay | agent/session.go:83-104 | in an accepted table no node is reachable in two ways |
| Session.ParentOnPath | agent/session.go:83-104 | and the parents along the one way down are the way back up |
| Session.Path | agent/tree/tree.go:450-466 | the walk up the parents of a reachable node ends and gives the one path from the root, as far up as the nearest node with an empty ID, which is all of it when there is none |
| SetupDiff.DiffSetups | eval/experiment_setup.go:169-223 | no change is reported exactly when the setups mean the same up to null-valued keys; applying the changes to the base gives the candidate's meaning; each change names the values at its path; paths ascend |
| SetupDiff.DiffExplains | eval/experiment_setup.go:182-220 | the same two facts for any two JSON trees |
| SetupDiff.ChangesAreReal | eval/experiment_setup.go:182-220 | before and after are the values at the path in either tree and differ in meaning |
| SetupDiff.DiffAscends | eval/experiment_setup.go:189-205 | changes come in the order of sorted keys and of items, so no path is repeated or inside another |
| SetupDiff.Visit | eval/experiment_setup.go:182-220 | the recursive walk appends exactly the changes below its path |
| Ordering.Sort | eval/experiment_setup.go:197-197 | the result is the one sorted sequence of the set |
| Ordering.SortedIsUnique | eval/experiment_setup.go:197-197 | sorted sequences with the same elements are equal |
| Ordering.StringsAreOrdered | eval/experiment_setup.go:197-197 | the character-by-character order of strings is a strict total order |
| EvalResults.AggregateCounts | eval/scorer.go:102-121 | a metric has a mean exactly when some score of it succeeded, over exactly those values, with their number |
| Gate.StampScores | eval/assert.go:339-354 | one assertion's verdicts joined to the earlier stamps give stamps for all assertions so far |
| EvalResults.MatchNarrows | eval/labels.go:55-62 | each label of a scope narrows it to the observations with that value; an empty scope is everything |
| Gate.Suite.StampAssertion | eval/assert.go:333-356 | a whole pass over the suite does so for every score |
| Gate.StampsAreUnique | eval/assert.go:321-356 | the stamps depend on which assertions there are, not on their order or number |
| Gate.Suite.CheckOne | eval/assert.go:211-301 | the violations of one assertion, loops and counters against an account over the scores in scope, which the rows on broken assertions give the meaning of |
| Gate.PlainViolations | eval/assert.go:211-301 | a plain assertion has no violation exactly when its metric was scored in scope and holds on every score there |
| Gate.RelaxedCheck | eval/assert.go:282-302 | with a pass rate there is a real violation exactly when the metric is missing though it could be measured, or some score counts and fewer hold than the rate asks for |
| Gate.BreaksIsReal | eval/assert.go:211-301 | for every kind of assertion, aggregates too, the real violations are exactly those a reader would list: an unknown operator or scope, a missing metric, a share below the rate, a mean or score that misses |
| Gate.Suite.NoConclusiveResult | eval/assert.go:197-209 | true exactly when every matching result is inconclusive and something is unmeasured |
| Gate.Suite.Check | eval/assert.go:168-191 | the suite's own violations, then those of each assertion |
| Gate.Suite.GateWith | eval/assert.go:321-371 | stamps, violations and outcome: failed on a real violation, inconclusive above the tolerance, passed otherwise |
| Gate.GateOnBreaks | eval/assert.go:321-371 | gating fails exactly when a subject failed for other reasons than infrastructure or some assertion is broken; otherwise it is inconclusive exactly above the tolerance |
| Gate.GateOneScore | eval/assert.go:321-371 | the gate of a suite with one score passes exactly when the value meets the threshold, by case, under a pass rate or as a mean |
| Gate.RealWhenStampedFalse | eval/assert.go:321-371 | for any suite and plain assertions, the gate lists a real violation exactly when a covered score is stamped false, an asserted metric is missing though something in its scope could be measured, a subject failed, or a score was marked inconclusive without an error and misses its threshold |
| Gate.GateOnStamps | eval/assert.go:321-371 | so gating fails exactly then, and on a fully measured suite it passes exactly when every asserted metric occurs in scope and no covered score is stamped false, and fails otherwise |
| Gate.UnexplainedScoreFails | eval/assert.go:253-270 | a gate that fails though no score is stamped false |
| Gate.LoopsDisagreeOn | eval/assert.go:253-270 | check and stamp differ on a score exactly when it is marked inconclusive without an error and misses the threshold |
| Gate.SameAssertionsSameOutcome | eval/assert.go:168-191 | the order and number of assertions do not change the outcome |
| Gate.GateAgain | eval/assert.go:303-371 | gating again, in any order, changes neither stamps nor outcome |
| Gate.ToleranceOnlyHelps | eval/assert.go:321-371 | gating one suite under two tolerances gives the same stamps and violations; the outcomes differ exactly when nothing is really violated and the share of unmeasured cases lies between the two, and then the higher tolerance turns inconclusive into passed |
| Gate.Suite.InconclusiveRate | eval/inconclusive.go:156-173 | the share of cases with an unmeasured result, an incomplete observation counting as one, between 0 and 1 |
| Gate.RateIsShare | eval/inconclusive.go:150-173 | the rate times the cases is the number of unmeasured ones, and it is positive exactly when something could not be measured |
| Compare.CaseKeyer | eval/compare.go:415-436 | the variant is left out of the key exactly when each arm holds one and they differ |
| Compare.KeyerIsSymmetric | eval/compare.go:412-422 | both ways of comparing two arms pair cases alike |
| Compare.PairsAreOrdered | eval/compare.go:438-449 | the order of case keys is a strict total order |
| Compare.SuccessfulScores | eval/compare.go:475-486 | the table of a metric's successful values by case, in order |
| Compare.Verdicts | eval/compare.go:513-530 | the tables of all metrics' verdicts by case, in order, and no empty one |
| Comparison.PairedDelta | eval/compare.go:493-509 | the mean over the shared cases of the difference of their means |
| Comparison.DeltaIsGain | eval/compare.go:493-509 | the delta is what the other arm's case means have over the base's, as means over the shared cases |
| Comparison.DeltaSwaps | eval/compare.go:493-509 | swapping the arms negates the delta and keeps the number of pairs |
| Comparison.McNemarPairs | eval/compare.go:566-580 | counts each case once, by its two verdicts |
| Comparison.PairsCountCases | eval/compare.go:566-581 | the four counts add up to the number of cases |
| Comparison.PairsCountVerdicts | eval/compare.go:566-580 | each of the four counts is the number of cases with those two verdicts |
| Comparison.PairedPasses | eval/compare.go:533-563 | pairs where every case has one verdict an arm, rates by case otherwise, nothing without a shared case |
| Comparison.CaseRatePasses | eval/compare.go:595-623 | means of the pass rates by case and of their differences |
| Comparison.RateIsShare | eval/compare.go:596-604 | a case's rate times its verdicts is the number that pass |
| Comparison.PassesAreShares | eval/compare.go:533-623 | each arm's rate is the mean over the shared cases of the share it passes there, the number of cases passed when every case has one verdict; the difference is the other arm's less the base's |
| Comparison.PassesSwap | eval/compare.go:566-626 | swapping the arms swaps the rates and the discordant counts, and negates the difference |
| CaseDiffs.RollUp | eval/compare.go:640-667 | every named metric of a case is rolled up, with exactly its successful values, verdict counts and inconclusive mark |
| CaseDiffs.Unmeasured | eval/compare.go:687-696 | the cases whose subject failed on infrastructure |
| CaseDiffs.ChangePoints | eval/compare.go:755-784 | verdicts on both arms decide: a case is improved exactly when the share passed rises beyond rounding; else values do: improved exactly when the value rises, or falls where lower is better; regressed the other way |
| CaseDiffs.OneSided | eval/compare.go:733-784 | a case that cannot be compared is inconclusive when an arm could not measure it, and otherwise the base's if the base has anything of it; nothing is said of one that both arms got only errors for |
| CaseDiffs.DiffSwaps | eval/compare.go:733-784 | swapping the arms swaps what is said of a case, unless both arms measured it and one has only a value and the other only a verdict; that case is only_base either way |
| CaseDiffs.ValueAgainstVerdict | eval/compare.go:755-784 | such a case: one value against one verdict is only_base both ways |
| CaseDiffs.CollectCaseDiffs | eval/compare.go:699-747 | the case differences in the order of metric, ID, turn and variant |
| CaseDiffs.CaseDiffsLists | eval/compare.go:699-747 | the report lists exactly the cases there is something to say of, each once, by metric, ID, turn and variant |
| CaseDiffs.CaseDiffsSwap | eval/compare.go:699-784 | the same, for the whole list in order |
| CaseDiffs.CompareSuites | eval/compare.go:328-391 | the report holds the differences of the shared metrics, the metrics one arm lacks, the paired statistics and the case differences |
| CaseDiffs.OneScoreEach | eval/compare.go:328-391 | two arms with one score each: the same item and turn, and variant unless variants are compared, are one case whatever the sample, reported with its change; anything else is two cases, one only in each arm |
| CaseDiffs.SwapArms | eval/compare.go:328-391 | reports of two arms and of the arms swapped mirror each other metric by metric and case by case |
| CaseDiffs.CompareBothWays | eval/compare.go:328-391 | comparing both ways gives two such reports |
| CaseIndex.Index.Number | eval/format.go:96-113 | each result gets the number of its occurrence, old numbers are kept, new ones are given densely and in order |
| CaseIndex.OccurrencesDiffer | eval/format.go:96-113 | no two results of an arm are the same occurrence of a case |
| CaseIndex.NumberArms | eval/format.go:76-113 | the base arm gets 0, 1, 2 and so on; numbers within an arm differ; across arms they agree exactly for the same occurrence of the same case; and no number is skipped |
| Deadline.PausableDeadline.Pause | agent/deadline.go:36-52 | the clock stops with the rest of the time; the deadline is lost exactly when the timer was due and had not fired |
| Deadline.PausableDeadline.Resume | agent/deadline.go:55-68 | the clock starts again exactly when the last pause ends with time left |
| Deadline.PausableDeadline.Stop | agent/deadline.go:71-82 | no timer is left, and nothing has fired |
| Deadline.PausableDeadline.Fire | agent/deadline.go:23-32 | firing happens once, unpaused, not after a stop, and with the whole running time used |
| Deadline.PausableDeadline.StillPending | agent/deadline.go:36-68 | while it can still fire, time left and running time used add up to the total, and it runs or waits for a resume |
| Deadline.Replay | agent/deadline.go:12-82 | over every history it fires at most once, and only after the whole running time; until then time left and time used add up |
| Deadline.LatePauseNeverFires | agent/deadline.go:36-68 | a pause between the due time and a late timer ends the deadline: whatever follows, it never fires |
| Deadline.NeverFired | agent/deadline.go:36-68 | such a deadline: its whole running time is used, and it never fires |
| Stop.StopState.RequestStop | agent/stop.go:81-103 | the first request wins and cancels an armed run, a later one changes nothing, and a run that ended without one refuses |
| Stop.StopState.Arm | agent/stop.go:129-140 | an earlier request acts as soon as the run's input is on the branch, once |
| Stop.StopState.Stopping | agent/stop.go:152-160 | a request is in effect exactly when the work was cancelled; it is the first one accepted, with its reason trimmed, or the default reason when that is blank |
| Stop.StopState.Stopped | agent/stop.go:108-116 | a request is reported only for a run that was cancelled exactly once, and is the first one that was accepted, its reason trimmed |
| Stop.ReasonIsKept | agent/stop.go:93-96 | a reason is kept without the white space around it, and a blank one is replaced by the default |
| Stop.Replay | agent/stop.go:44-168 | over every interleaving requests are accepted exactly when the first came before the run was sealed; the work is cancelled once, exactly when one was accepted and the run armed; a stop is reported exactly when the run wrapped up for it, and is the first request |

## Left out

- The think-block and code-fence expressions of `ExtractJSON`: its scanning phase is modelled, and the JSON validity test is taken to be the grammar of RFC 8259.
- Text is a sequence of characters; encoding errors in strings are not part of this model.
- Provider adapters, streaming aggregation, prompts, hooks, budgets, citations and logging: a call is a reply, an interruption or an error, and a hook or guardrail lets the run go on, fails it or panics.
- The contents of messages: a branch keeps call IDs, result IDs and whether a turn has text.
- Compaction strategies: a compaction yields any history, which is used when it passes the pairing check.
- AgentRun.Run.Execute: the inbox, the children and the claims appear as numbers of arrivals and as failing moves; their own protocols are the modules Inbox, Spawn and RunGuard.
- AgentRun.RunFresh: the compaction limits may change from turn to turn; the step cap is that of the run, and a message that changes it is left out.
- Handoffs between agents, sub-agent capture and durable step runners, except that a suspended run keeps its calls open.
- The run ends when its script does: a provider call or a wait that never returns is not modelled.
- Inbox.Stream.Inject: appending a message and reporting it are one step; the changes a guardrail makes to a message while admitting it are left out.
- Side submissions of `Agent.Submit`, which start a run on a branch of their own.
- Spawn: budgets of children, their deltas, transcripts and shutdown; the scan of `outstanding` is one step.
- InterruptRouter: listing pending interrupts, and the deltas that announce them.
- Approval: how an argument satisfies a matcher is a parameter of the call; the hashing of grant IDs and the time a verdict takes under a durable runner are left out.
- Stop: the text of the stop record.
- Session: decoding and saving; a node table is any map.
- SetupDiff: building the setups, and how a path is printed, which is ambiguous for keys with dots or brackets.
- Compare: bootstrap, Wilson and McNemar intervals and p-values, and the fields of a comparison that are copied.
- Gate: the wording of reasons; a violation names its cause and the assertion.
- CaseIndex: reading and writing the numbered files.
- Rounding of floating-point numbers.
