# NEXUS workflow model

NEXUS is a sales-automation backend. Its workflow layer is a set of state machines that loops drive over
database rows. This project models that layer and proves what it keeps over every history:

| component | files |
|---|---|
| orchestration planner and engine: plans that are DAGs of tool steps, approvals, cascading skips, the event log | `Planner`, `RunModel`, `Engine`, `RunInvariant`, `RunTheorems`, `EventLog`, `StatusLog`, `Liveness` |
| outbound mail: composing, the gates of the send tool, the send policy, retried sends, the bar on sourced addresses | `Outbound`, `SendRetries`, `SourcedBar` |
| campaigns: draft, approve, send, cancel and the report | `CampaignModel`, `CampaignTheorems`, `TargetOrigins`, `Campaigns`, `CancelledCadence` |
| cadences: one enrollment, the batch of due enrollments | `CadenceModel`, `CadenceTheorems`, `CadenceRuns`, `TickOutcomes`, `CadenceBatch`, `BatchRows`, `Cadences` |
| idempotency keys under any interleaving, and the answers they keep | `Idempotency`, `CachedAnswers`, `LostResponses` |
| relationship graph: ingesting a batch, counters, the pooling switch | `Upserts`, `NetworkModel`, `NetworkTheorems`, `NetworkRuns`, `NetworkValues`, `NetworkService` |
| rate limiter | `RateLimit` |
| data-source registry: budgets, breakers, merge, cache | `Registry`, `MergedCompanies` |
| token budget of a chat turn and the merge of the profile | `Envelope` |
| learned weights and the fit score | `Scoring` |

Where the program changes rows in place, a class has the row's columns as fields, its methods are proved equal
to a specification function over a value of the same columns, and the theorems are about all sequences of those
functions. Tool results, drafts, verdicts, query answers of other systems and the clock are arguments: a theorem
holds for all of them. One service call is one atomic step, except for the idempotency keys, where every store
operation is a step of its own.

## Findings

Where a promise turned out narrower than its wording, the code was followed, and the exact condition proved.

- A rejection finalizes without driving, so it leaves a run RUNNING exactly under the condition of
  `RunTheorems.RejectLeavesRunning`; `RunTheorems.RejectedRunStaysRunning` reaches such a run.
- A FAILED run is final exactly while no approval is pending; with parallel gates it can go back to
  AWAITING_APPROVAL (`RunTheorems.TerminalIsFinalIff`, `RunTheorems.FailedRunReopens`).
- The send tool pushes to the sequence platform before it delivers, and the engine retries it. So one approval can
  push the same message at every attempt, more than once exactly under `SendRetries.ApprovalPushesAgainIff`.
- `handle_run_campaign` says a campaign past the phase is left alone. A draft job does so exactly unless the campaign
  is sending its cadences, which it puts back to review; a second approval enrolls nobody again
  (`CampaignTheorems.DraftJobLeavesAloneIff`, `CampaignTheorems.RedraftReopensReview`).
- The campaign draft carries a "sourced" mark into the send policy, a cadence draft does not. The mark decides exactly
  when the address is below the confidence bar (`Outbound.MarkDecidesIffBelowBar`), and there a campaign with a cadence
  hands over what a plain one holds back (`SourcedBar.BarHoldsOnlyWithoutCadence`).
- An enrollment stopped while a touch awaits review sends the message and goes on when the touch is approved
  (`CadenceRuns.StoppedEnrollmentRevives`); a terminal enrollment is final exactly when no touch awaits
  (`CadenceRuns.TerminalIsFinalIff`).
- An approval that raises after the push is rolled back, and the message can be handed over again
  (`CadenceRuns.RepeatedApprovalSendsTwice`); nothing else makes a cadence hand a step's message over twice
  (`CadenceRuns.SentAtMostOnce`).
- An identity with neither email nor name, or one whose person is out of sight of the bounded scan, becomes a new
  person at every sync (`NetworkTheorems.IngestTwiceIffInSight`).
- Two accounts of one member and provider share edges, and the switch of one can expose what the other brought in
  (`NetworkRuns.MirroredEveryRunIff`).
- A person's identity count is not corrected when an identity moves to another person (`NetworkRuns.CountsStayExactIff`).
- Contact replaces the relation a provider gave, and can make an edge weaker than no contact once the last touch is
  more than 90 days ago, exactly as `NetworkRuns.ContactWeakensIff` tabulates.
- Cancelling a campaign does not stop the enrollments it made: their messages go on leaving
  (`CancelledCadence.CancelledStillHandsOverIff`, `CancelledCadence.CancelledCampaignSends`).
- A sync replaces an edge's statistics by those of its own touchpoints, so over several syncs they miss the earlier ones,
  exactly as `NetworkRuns.SyncedStatsAreAllIff` says.
- A recency window of 0 keeps every message, a negative one all but the first few (`Envelope.WindowBoundsIff`); a
  negative summary cap is no cap (`Envelope.CapBoundsIff`).
- Weights given by hand can push a score out of 0..100, exactly when those against the sign of their sum exceed a 200th
  of it; if they cancel out, a 200th of 1 (`Scoring.FitInRangeIff`).
- A limiter that empties its table forgets its clients: an early retry is let through exactly then
  (`RateLimit.RetryAfterIsRight`).
- An idempotency claim that expires under a running handler lets a second one start at once
  (`Idempotency.ExpiryLetsSecondInIff`); later on, one that expires under a handler or under a request taking its claim
  back can, and no other (`Idempotency.ExpiryCanDoubleIff`). Expiries of keys nobody is at work under are harmless
  (`Idempotency.OneHandlerDespiteExpiries`).
- A release on Redis reads the key and then deletes it, so it can clobber a stored response after all: after an expiry,
  exactly when a request was at work under the key (`LostResponses.ExpiryCanClobberIff`,
  `LostResponses.ClobberIsReached`).

## Model

| member | source | states |
|---|---|---|
| Planner.Validate | nexus/orchestration/planner.py:145-178 | succeeds exactly on plans of the right size whose indices are contiguous, tools known and dependencies strictly earlier; raises the approval flag of side-effecting tools and changes nothing else; an error names the first bad step |
| Planner.Plan | nexus/orchestration/planner.py:57-143 | succeeds exactly when the goal is shipped and its recipe fits and is accepted; then the plan sends only behind composing, composes only behind scoring and scores only behind research, has each tool its goal needs once and no other, and gates the send and what is side-effecting; an unknown goal is the error |
| Planner.ShippedRecipesAreChains | nexus/orchestration/planner.py:57-126 | every shipped recipe is accepted as it stands and has no parallel branches |
| Engine.OrchestrationRun.constructor | nexus/orchestration/engine.py:101-134 | a new run is the planning state of its plan, with its first event |
| Engine.OrchestrationEngine.CreateRun | nexus/orchestration/engine.py:76-137 | a key used before gives the run it was first used for; else a run is created exactly when the goal can be planned, from an accepted plan with the tools, order and gates of that goal, and kept under its key |
| Engine.OrchestrationEngine.Emit | nexus/orchestration/engine.py:483-512 | appends one event numbered one above the largest number so far |
| Engine.OrchestrationEngine.FindRunnable | nexus/orchestration/engine.py:425-435 | the first pending step with all its dependencies completed, or none |
| Engine.ClosureComplete | nexus/orchestration/engine.py:437-447 | a set closed under "depends on" without a frontier contains everything that reaches the root |
| Engine.OrchestrationEngine.Dependents | nexus/orchestration/engine.py:437-447 | the worklist ends with exactly the transitive dependents |
| Engine.OrchestrationEngine.CascadeSkip | nexus/orchestration/engine.py:449-462 | the pending transitive dependents become skipped, nothing else changes, and one event says which |
| Engine.OrchestrationEngine.Finalize | nexus/orchestration/engine.py:464-481 | the status rollup, with run.failed or run.completed behind it in the log |
| Engine.OrchestrationEngine.RetryTool | nexus/orchestration/engine.py:203-229 | the step ends with the first success within the attempts, or failed after the last one |
| Engine.OrchestrationEngine.RunStepTool | nexus/orchestration/engine.py:186-230 | one step run: its row, and its start and end events |
| Engine.OrchestrationEngine.Park | nexus/orchestration/engine.py:232-257 | the step awaits, a pending approval is added, the run awaits approval |
| Engine.OrchestrationEngine.Drive | nexus/orchestration/engine.py:152-184 | refines the recursive drive, in at most one round more than there are pending steps, so the guard of twice the length plus eight is never met |
| Engine.OrchestrationEngine.ExecuteRun | nexus/orchestration/engine.py:139-150 | a terminal run is left alone, any other is driven |
| Engine.OrchestrationEngine.DecideApproval | nexus/orchestration/engine.py:259-339 | the errors in their order; else the approval is decided and the run driven on, or wound down |
| Engine.OrchestrationEngine.RedraftApproval | nexus/orchestration/engine.py:341-400 | the errors in their order; else one event and no other change |
| Engine.OrchestrationEngine.CancelRun | nexus/orchestration/engine.py:402-419 | pending and parked steps become skipped, pending approvals of skipped steps rejected, once |
| RunInvariant.InvHoldsInEveryRun | nexus/orchestration/engine.py:139-339 | for every accepted plan and every sequence of operations the joint invariant of steps, approvals and rollup holds |
| RunInvariant.ApplyInv | nexus/orchestration/engine.py:139-419 | each operation keeps the joint invariant |
| RunInvariant.SkippedIffUpstreamBroke | nexus/orchestration/engine.py:437-462 | in a settled run a step is skipped exactly when some transitive dependency failed or was rejected; so none is left pending behind one |
| RunInvariant.UpstreamCompleted | nexus/orchestration/engine.py:425-435 | a step that was started, parked or rejected has all transitive dependencies completed, and they are earlier |
| RunInvariant.PendingIsDrivable | nexus/orchestration/engine.py:425-435 | below any pending step there is a runnable one, unless a step awaits |
| RunTheorems.ExecuteQuiesces | nexus/orchestration/engine.py:139-184 | executing a run that is not terminal leaves it completed, failed or awaiting approval, with the steps that status says |
| RunTheorems.ApproveQuiesces | nexus/orchestration/engine.py:313-339 | so does an approval |
| RunTheorems.RejectLeavesRunning | nexus/orchestration/engine.py:297-311 | a rejection leaves the run running exactly when nothing failed, no other step awaits and some pending step does not depend on the rejected one |
| RunTheorems.RejectedRunStaysRunning | nexus/orchestration/engine.py:297-311 | such a run is reached: a gate rejected beside a step that does not depend on it |
| RunTheorems.ApplyEvolves | nexus/orchestration/engine.py:259-419 | no operation changes a finished step, a decided approval or an event already logged |
| RunTheorems.DecidedOnce | nexus/orchestration/engine.py:277-294 | over any sequence of operations each approval is decided at most once |
| RunTheorems.GateSafety | nexus/orchestration/engine.py:176-179 | in every run a gated step was attempted only if its approval is approved, and awaits exactly while its approval is pending |
| RunTheorems.SendNeedsApproval | nexus/orchestration/planner.py:175-178 | with the shipped tools no run attempts a send step without an approved approval, whatever flags the plan came with |
| RunTheorems.TerminalIsFinalIff | nexus/orchestration/engine.py:277-294 | a terminal run is changed by no operation exactly when no approval is pending; only a failed one can have any |
| RunTheorems.ChainRunsEnd | nexus/orchestration/engine.py:464-481 | in a plan without parallel branches a terminal run never changes again |
| RunTheorems.FailedRunReopens | nexus/orchestration/engine.py:327-338 | two parallel gates: a failed run goes back to awaiting approval |
| RunTheorems.ApprovedRow | nexus/orchestration/engine.py:313-331 | the row of an approved step is what its own tool run left, whatever the run does afterwards |
| EventLog.LogReplaysEveryRun | nexus/orchestration/engine.py:483-512 | in every run the events are numbered from 1 without a gap, are legal, and replaying them over pending steps gives every step's status and every approval given |
| EventLog.ApplyLogged | nexus/orchestration/engine.py:200-229 | each operation keeps the log and the rows in step |
| EventLog.SinceIsSuffix | nexus/orchestration/engine.py:485-490 | the events after a number are a suffix of the log |
| EventLog.ResumeReplay | nexus/orchestration/engine.py:485-490 | replaying any prefix and then the events after its last number is replaying all |
| EventLog.StartsAreOrdered | nexus/orchestration/engine.py:425-435 | a step is started at most once, after all its dependencies are logged done, and if gated after its approval is logged |
| StatusLog.StatusIsLogged | nexus/orchestration/engine.py:402-481 | in every history the log opens with run.created, the last verdict in it names the status of an ended run, and run.completed and run.cancelled are in it exactly when the run is completed or cancelled, and then once |
| StatusLog.FailuresAreLogged | nexus/orchestration/engine.py:139-481 | after any history, a call that executes or decides adds exactly one run.failed if it leaves the run failed and none otherwise, a redraft adds its own event and nothing else, and a call that may not work changes nothing |
| StatusLog.RefusalsAreExact | nexus/orchestration/engine.py:277-294 | why a decision or a redraft is refused: each reason exactly where no earlier one holds; a decision never misses its step |
| StatusLog.EndsFollowStarts | nexus/orchestration/engine.py:186-230 | in every history the end of a step stands in the log right behind its start |
| StatusLog.StagesInOrder | nexus/orchestration/planner.py:57-108 | in every history of a run for a shipped goal a send starts only after a compose, a scoring and a research step are logged done and its own approval is given, a compose only after scoring and research, a scoring only after research |
| Liveness.CompletesAfterOneApprovalPerGate | nexus/orchestration/engine.py:313-339 | when tools succeed and gates are approved, the run is completed exactly after as many approvals as the plan has gated steps |
| Liveness.SomeGateIsOpen | nexus/orchestration/engine.py:313-339 | until then there is always an approval that can be given |
| Liveness.CompletedMeansAllSteps | nexus/orchestration/engine.py:464-481 | and then every step is completed |
| Outbound.Compose | nexus/orchestration/tools.py:113-164 | the staged draft, its grounding, address and verdict; only the chosen contact's email status changes |
| Outbound.Send | nexus/orchestration/tools.py:178-266 | the ordered gates of the send tool, and whether the draft was pushed before whatever ended the call |
| Outbound.SendGates | nexus/orchestration/tools.py:178-227 | a draft is reported sent exactly if it was pushed and nothing failed after the push; what is pushed was grounded and not to an address found invalid; what is refused as ungrounded, exactly the ungrounded |
| Outbound.SendEndings | nexus/orchestration/tools.py:178-266 | each way a send can end under its own condition, and when the words "ungrounded" and "undeliverable" the callers look for are in a refusal |
| Outbound.PolicyMeansSendable | nexus/campaigns/service.py:238-257 | the send policy lets through exactly the drafts that are not invalid, risky only if allowed, sourced and unknown only at the bar |
| Outbound.MarkDecidesIffBelowBar | nexus/campaigns/service.py:246-257 | the policy treats a composed draft otherwise than the same draft marked as sourced exactly when the verifier left the address open below the bar, or there is no address and the bar is above 0 |
| SourcedBar.BarHoldsOnlyWithoutCadence | nexus/cadences/service.py:254-285 | for the same sourced contact and settings, a plain campaign hands the message over exactly when it meets the bar and else skips the target as unverified, while with a cadence the target is enrolled and the first tick hands it over either way |
| SourcedBar.SourcedDeliveriesMeetTheBar | nexus/campaigns/service.py:192-257 | in every history of a campaign, whatever it hands over itself from a sourced contact with an open verdict meets the bar |
| SendRetries.LoopPushesAgainIff | nexus/orchestration/engine.py:203-229 | the retry loop pushes a message again exactly when the first push failed after it and a later attempt gets as far |
| SendRetries.ApprovalPushesAgainIff | nexus/orchestration/tools.py:205-227 | one approval of a send step pushes the message at most as often as the attempts allowed, and more than once exactly under that condition |
| SendRetries.EveryAttemptPushes | nexus/orchestration/tools.py:205-227 | a mailbox that refuses every delivery has it pushed at every attempt |
| CampaignTheorems.InvEveryRun | nexus/campaigns/service.py:110-235 | every campaign history keeps the invariant of targets, deliveries, enrollments and report |
| CampaignTheorems.ClimbsEveryRun | nexus/campaigns/service.py:110-301 | every target's status only climbs, and a sent, skipped or failed target never changes again |
| CampaignTheorems.OutAtMostOnce | nexus/campaigns/service.py:153-235 | over any draft jobs, approvals, send jobs and cancels each target is handed over or enrolled at most once, and not both: once if sent or approved, never while undecided |
| CampaignTheorems.SentIsSafe | nexus/campaigns/service.py:192-257 | whatever was handed over passed the policy, had a contact and a verdict and was not invalid when verified again; its target is sent exactly if nothing failed after the push |
| TargetOrigins.OriginEveryRun | nexus/campaigns/service.py:259-340 | in every history a target's draft and run are those of its first compose unless a contact was looked for and found, which is exactly when its draft carries the mark; a target the drafting gave up on keeps its status and reason |
| TargetOrigins.NothingSourcedWhenOff | nexus/campaigns/service.py:283-290 | with sourcing off no target carries the mark, its draft and run are those of its first compose, and a first draft without a contact skips it as no_contact |
| TargetOrigins.JobDrafts | nexus/campaigns/service.py:110-126 | a draft job drafts each pending target exactly unless the drafting gives it up |
| TargetOrigins.ApprovalSends | nexus/campaigns/service.py:192-236 | a plain approval decides each drafted target by its own draft and input: sent, failed, or skipped, and for which reason |
| TargetOrigins.ApprovalRefusedIff | nexus/campaigns/service.py:128-190 | an approval is refused, and changes nothing, exactly when the campaign is not under review, or somebody is drafted for a cadence without a first step |
| CampaignTheorems.SkipsAddUp | nexus/campaigns/service.py:343-365 | the counts by skip reason add up to the skipped targets |
| CampaignTheorems.CompletedReportAddsUp | nexus/campaigns/service.py:153-168 | a completed plain campaign's report has total = sent + skipped + failed, and as many sent as deliveries reported sent |
| CampaignTheorems.TerminalCampaignFrozen | nexus/campaigns/service.py:110-151 | no jobs and requests, in any number and order, change a campaign exactly when it is terminal |
| CampaignTheorems.DraftJobLeavesAloneIff | nexus/workers/tasks.py:83-87 | in every history a campaign once drafted is left alone by another draft job exactly unless it is sending |
| CampaignTheorems.RedraftReopensReview | nexus/workers/tasks.py:83-87 | a draft job on a campaign that is sending reopens its review; approving that enrolls and changes nobody |
| CampaignTheorems.SendingIsReached | nexus/campaigns/service.py:128-190 | drafting and approving any campaign with a cadence gets there |
| CancelledCadence.CampaignMakesNoDifference | nexus/cadences/service.py:202-216 | an enrollment follows its own operations only, whatever is done to its campaign in between |
| CancelledCadence.TickMessages | nexus/cadences/service.py:177-285 | a tick hands a message over exactly when an email step is due, not stopped, parked or raising, its draft passes the policy and it comes as far as the push |
| CancelledCadence.CancelledStillHandsOverIff | nexus/cadences/service.py:202-216 | in every history, right after its campaign is cancelled an enrollment hands a message over exactly under that condition, which the status of the campaign has no part in |
| CancelledCadence.CancelledCampaignSends | nexus/campaigns/service.py:143-151 | a campaign cancelled while it is sending, after which the first message leaves |
| Campaigns.Campaign.constructor | nexus/campaigns/service.py:87-105 | one pending target for each account of the list, in the order the accounts first occur |
| Campaigns.OneTargetAnAccount | nexus/campaigns/service.py:87-105 | those are exactly the accounts of the list, each once |
| Campaigns.CampaignService.MakeReport | nexus/campaigns/service.py:343-365 | the counting loop gives the report of the specification |
| Campaigns.CampaignService.DraftTarget | nexus/campaigns/service.py:259-341 | one target drafted, skipped or failed by the draft it got |
| Campaigns.CampaignService.RunDraftPhase | nexus/campaigns/service.py:110-126 | exactly the pending targets are drafted, then the campaign awaits approval |
| Campaigns.CampaignService.SendTarget | nexus/campaigns/service.py:192-235 | one target sent, skipped or failed; a delivery is recorded exactly when the tool handed the draft over |
| Campaigns.CampaignService.RunSendPhase | nexus/campaigns/service.py:153-168 | refines the send phase |
| Campaigns.CampaignService.EnrollDrafted | nexus/campaigns/service.py:170-190 | the drafted targets are approved and enrolled |
| Campaigns.CampaignService.ApproveAndSend | nexus/campaigns/service.py:128-141 | refused unless the campaign awaits approval; else the cadence or the send phase starts |
| Campaigns.CampaignService.CancelCampaign | nexus/campaigns/service.py:143-151 | a campaign that is not terminal is cancelled |
| Campaigns.CampaignService.HandleDraftJob | nexus/workers/tasks.py:83-85 | drafts unless terminal or awaiting approval |
| Campaigns.CampaignService.HandleSendJob | nexus/workers/tasks.py:86-87 | sends exactly when approved |
| CadenceTheorems.PutTouchAt | nexus/cadences/service.py:306-320 | saving a touch keeps one touch a step and changes no other step's |
| CadenceTheorems.ProcessInv | nexus/cadences/service.py:177-285 | a tick keeps the enrollment's invariant |
| CadenceTheorems.ApproveInv | nexus/cadences/service.py:491-515 | so does an approval of a touch |
| CadenceTheorems.RejectInv | nexus/cadences/service.py:517-537 | so does a rejection |
| TickOutcomes.TickStops | nexus/cadences/service.py:177-285 | a due tick stops an enrollment as replied, for its duration or as undeliverable, parks it, completes it or goes on, each exactly under its condition on the inputs, and with the time of the next step |
| TickOutcomes.TickRow | nexus/cadences/service.py:202-374 | the row the step is left with: each status and each reason to skip exactly under its condition, and the call it queued |
| TickOutcomes.ApprovalOutcome | nexus/cadences/service.py:491-515 | what an approval is refused for, when it raises and leaves the rows alone, when it stops the enrollment as undeliverable, and the row it leaves |
| TickOutcomes.RejectionOutcome | nexus/cadences/service.py:517-537 | a rejected touch is skipped as rejected and the enrollment stopped by hand if asked, else moved on |
| TickOutcomes.PauseHolds | nexus/cadences/service.py:452-467 | no tick changes a paused enrollment, and resuming gives it back, due at that time |
| TickOutcomes.StoppingEnds | nexus/cadences/service.py:469-477 | stopping by hand ends what is not over and leaves the rest and all rows |
| CadenceRuns.InvEveryRun | nexus/cadences/service.py:177-536 | over every interleaving of ticks, pauses, resumes, stops and reviews the invariant holds |
| CadenceRuns.PrefixEveryRun | nexus/cadences/service.py:177-285 | at most one touch a step, all before the index sent, skipped or failed, none after it, an awaiting one only at it, and behind each sent email a safe message that the tool reported sent |
| CadenceRuns.SentAtMostOnce | nexus/cadences/service.py:322-374 | a step's message was handed over exactly as often as an approval of it raised after the push while its touch is open, exactly once more when it is sent, and at most once more when it was skipped or failed |
| CadenceRuns.RepeatedApprovalSendsTwice | nexus/cadences/service.py:491-515 | an approval that raises after the push, in the tool or on recording the outcome, does lead to a second hand-over |
| CadenceRuns.LifecycleKept | nexus/cadences/service.py:400-424 | stop reason exactly when stopped and completion time exactly when terminal, kept by every operation that does not review a terminal enrollment, and none of those changes a terminal one |
| CadenceRuns.LifecycleEveryRun | nexus/cadences/service.py:400-476 | and so over every such history |
| CadenceRuns.TerminalIsFinalIff | nexus/cadences/service.py:479-537 | a terminal enrollment is changed by no operation exactly when no touch awaits review |
| CadenceRuns.StoppedEnrollmentRevives | nexus/cadences/service.py:491-515 | stopped while a touch awaits and then approved: the message leaves after the stop, and the enrollment goes on, or is completed, with its stop reason still set |
| CadenceRuns.RejectionRevives | nexus/cadences/service.py:517-537 | a rejection makes it active again as well, without a message |
| CadenceRuns.TickProgress | nexus/cadences/service.py:177-200 | a due enrollment's tick raises the index by one, parks it or ends it |
| CadenceRuns.TerminalWithinSteps | nexus/cadences/service.py:177-200 | without review an enrollment of N steps is terminal after N processed ticks |
| CadenceRuns.StepsAreSpaced | nexus/cadences/service.py:400-410 | without resumes consecutive steps are processed at least the later one's delay apart |
| CadenceRuns.FirstTouchWaits | nexus/cadences/service.py:115-144 | without a resume the first step is not run before its own delay from the enrollment |
| CadenceBatch.SentIsNoReply | nexus/cadences/service.py:426-441 | outcomes a cadence writes never count as a reply |
| CadenceBatch.BatchIsPointwise | nexus/cadences/service.py:146-156 | a batch leaves each enrollment as if it had been processed alone, and adds exactly their outcomes and tasks |
| CadenceBatch.BatchAnyOrder | nexus/cadences/service.py:158-175 | the order of the batch does not matter |
| CadenceBatch.OneOpenCallAStep | nexus/calling/service.py:42-50 | processing an enrollment never adds a second open call task for its step |
| CadenceBatch.OneOpenCallEveryRun | nexus/calling/service.py:42-50 | in every history of batches, closed calls and other changes to enrollments there is at most one open call task an enrollment and step |
| BatchRows.BatchStopsOnAnswer | nexus/cadences/service.py:426-441 | an enrollment of a batch is stopped as replied exactly when the outcomes hold a reply, meeting or deal of its contact since it started |
| BatchRows.SentIsRecorded | nexus/cadences/service.py:322-374 | a tick adds one sent outcome of its contact when its email was sent and put on record, and else none |
| BatchRows.CallIsQueued | nexus/cadences/service.py:233-252 | a tick queues a call exactly when its step is a call that can be queued and has no open task |
| Cadences.Enrollment.constructor | nexus/cadences/service.py:115-144 | the new enrollment, due after the first delay |
| Cadences.CadenceService.QueryReply | nexus/cadences/service.py:426-441 | a reply or meeting of the contact since the start |
| Cadences.CadenceService.Enqueue | nexus/calling/service.py:30-60 | adds a task unless one is open for the enrollment and step |
| Cadences.CadenceService.SendStep | nexus/cadences/service.py:322-374 | the touch by the send tool's answer, and the outcome written |
| Cadences.CadenceService.RunEmailStep | nexus/cadences/service.py:254-285 | composing, grounding, policy, review and send, in that order |
| Cadences.CadenceService.RunCurrentTouch | nexus/cadences/service.py:202-252 | one touch of the current step and what to do next |
| Cadences.CadenceService.AdvanceEnrollment | nexus/cadences/service.py:400-415 | to the next step at its delay, or completed after the last |
| Cadences.CadenceService.StopEnrollment | nexus/cadences/service.py:417-424 | stopped, with reason and time |
| Cadences.CadenceService.ProcessEnrollment | nexus/cadences/service.py:177-200 | one tick: a raising step is recorded as failed and passed over |
| Cadences.CadenceService.AdvanceDue | nexus/cadences/service.py:146-156 | rows, outcomes and call tasks are those of the batch, and each enrollment ends as if processed alone |
| Cadences.CadenceService.PauseEnrollment | nexus/cadences/service.py:452-457 | active enrollments are paused |
| Cadences.CadenceService.ResumeEnrollment | nexus/cadences/service.py:459-467 | paused enrollments are due now |
| Cadences.CadenceService.StopManually | nexus/cadences/service.py:469-476 | stopped unless terminal |
| Cadences.CadenceService.ApproveTouch | nexus/cadences/service.py:491-515 | refused without an awaiting touch; else sent and advanced, or rolled back; one outcome is recorded exactly if it succeeded and the message was sent |
| Cadences.CadenceService.RejectTouch | nexus/cadences/service.py:517-537 | the touch is skipped and the enrollment stopped or advanced |
| Idempotency.RunInv | nexus/core/middleware.py:124-182 | under every interleaving without expiry a key is claimed exactly while one request owns it, and what was answered is what is stored |
| Idempotency.OneHandlerOneAnswer | nexus/core/middleware.py:147-175 | two requests of one key are never both in their handlers, at most one stores its own response, and all answers given are the same |
| Idempotency.OnlyTheOwnerWrites | nexus/core/idempotency.py:112-119 | a claimed key is written only by its owner, completing or releasing |
| Idempotency.StoredForGood | nexus/core/idempotency.py:100-119 | a stored response stays, and no handler of its key starts again |
| Idempotency.LateRequestReplays | nexus/core/middleware.py:147-156 | a request that comes after can only end by replaying exactly that response |
| Idempotency.ReleaseReopensTheKey | nexus/core/middleware.py:163-173 | after a release, whatever other requests and expiries come between, the first request to claim the key gets it |
| Idempotency.ClaimedMeansOwned | nexus/core/idempotency.py:100-103 | a claimed key has exactly one owner |
| Idempotency.ExpiryKeepsClaimsIff | nexus/core/idempotency.py:58-61 | an expiry keeps the invariant exactly when what expires is a stored response |
| Idempotency.ExpiryKeepsExclusionIff | nexus/core/idempotency.py:58-61 | it keeps the exclusion of handlers exactly when nobody is at work under the key |
| Idempotency.OneHandlerDespiteExpiries | nexus/core/middleware.py:147-175 | in every history whose expiries hit only keys nobody is at work under, no two handlers of a key are in flight |
| Idempotency.ExpiryLetsSecondInIff | nexus/core/middleware.py:147-163 | when a key expires and another request claims it, two handlers are in flight exactly if one was before |
| Idempotency.ExpiryGivesTwoAnswers | nexus/core/middleware.py:175-182 | when it expires under a request about to store its response, two different answers are given as own |
| Idempotency.ExpiryCanDoubleIff | nexus/core/middleware.py:147-173 | after an expiry some course of events without another one has two handlers of the key in flight exactly when its owner was handling, or about to take its claim back and so the next one's |
| Idempotency.SecondHandlerIsReached | nexus/core/idempotency.py:58-68 | a run in which a second handler starts |
| Idempotency.MemoryStore.TryClaim | nexus/core/idempotency.py:63-68 | succeeds exactly when no live entry is there |
| Idempotency.MemoryStore.Fetch | nexus/core/idempotency.py:70-76 | the live stored response, if any; nothing live changes |
| Idempotency.MemoryStore.Put | nexus/core/idempotency.py:78-80 | the response is stored, nothing else changes |
| Idempotency.MemoryStore.Release | nexus/core/idempotency.py:82-85 | only a claim in progress is removed |
| Idempotency.MemoryStore.PurgeIfExpired | nexus/core/idempotency.py:58-61 | dead entries go, live ones stay |
| Idempotency.Dispatch | nexus/core/middleware.py:124-182 | the handler runs exactly when the key was free; an answer of 500 or more or not JSON leaves the live entries as they were, any other is what the key then holds, even if the claim expired meanwhile |
| CachedAnswers.OnlyJsonBelow500IsKept | nexus/core/middleware.py:168-175 | in every history, expiries included, what is stored, given as own or replayed was answered by a handler under that key as JSON with a status below 500 |
| CachedAnswers.UncachedReleasesTheKey | nexus/core/middleware.py:168-172 | without expiry an answer of 500 or more, or not JSON, is only passed through, its delete frees the key, and what the key holds after that is another request's |
| CachedAnswers.CachedIsStored | nexus/core/middleware.py:174-175 | any other answer is in the store once the request has it as its own |
| CachedAnswers.ResponsesGoBy | nexus/core/idempotency.py:116-119 | in every history a stored response goes away only by expiring, by a completion under its key, or by a release that had found a claim there |
| LostResponses.ExpiryCanClobberIff | nexus/core/idempotency.py:116-119 | after an expiry with another request waiting, some course of events without another one has a release delete a stored response exactly when a request was at work under the key |
| LostResponses.NeverWithoutExpiry | nexus/core/idempotency.py:116-119 | while every claim at work is in the store, no course of events without an expiry does |
| LostResponses.ClobberIsReached | nexus/core/idempotency.py:116-119 | such a state is reached from the start by one claim and one expiry |
| Upserts.UpsertAllSettles | nexus/network/service.py:123-150 | after a list of find-or-add writes every key written holds its last value |
| Upserts.UpsertAllRestores | nexus/network/service.py:123-150 | writing them again restores a table that differs only under those keys |
| Upserts.UpsertTwice | nexus/network/service.py:123-150 | the same writes twice are the same writes once |
| NetworkTheorems.FindIs | nexus/network/resolution.py:58-72 | the person found is the first that matches, if it is in sight of the bounded scan, and else nobody |
| NetworkTheorems.FoundAgainIff | nexus/network/resolution.py:46-87 | a contact once resolved is found again in a later graph exactly if its person is in sight there, and else nobody is found |
| NetworkTheorems.IngestIsUpserts | nexus/network/service.py:76-150 | a batch is two lists of find-or-add writes for the persons it resolves to |
| NetworkTheorems.LastIdentityWins | nexus/network/service.py:105-150 | after a batch an edge has the statistics, relation, strength and pooling of the last identity that resolved to its person, and an identity points to the person it last resolved to |
| NetworkRuns.SyncedStatsAreAllIff | nexus/network/service.py:142-150 | after a sync an edge's statistics are those of its own and any earlier touchpoints together exactly when the earlier ones held no mail and no meeting with the person and nothing outside the new first and last touch |
| NetworkTheorems.IngestTwiceIffInSight | nexus/network/service.py:64-156 | for every graph and batch, ingesting twice is ingesting once exactly when every identity has an email, or has a name and fewer than 500 persons without an email before its person |
| NetworkTheorems.IngestTwiceIffRecognizable | nexus/network/service.py:64-156 | with up to 500 persons without an email that is exactly when every identity has an email or a name |
| NetworkRuns.TouchpointOrderIrrelevant | nexus/network/service.py:45-61 | the aggregate does not depend on the order of the touchpoints |
| NetworkRuns.CountsAreNumbers | nexus/network/service.py:49-56 | the counts are the numbers of the person's touchpoints of each kind |
| NetworkRuns.FirstAndLast | nexus/network/service.py:57-60 | first and last are the earliest and latest touchpoint |
| NetworkRuns.StrengthIsMonotone | nexus/network/strength.py:39-54 | under one relation more or later contact never lowers the strength, time never raises it, and it is at most 100 |
| NetworkRuns.ContactWeakensIff | nexus/network/service.py:111-121 | contact makes an edge weaker than the given relation alone exactly under a table of relation, age and points brought |
| NetworkRuns.OneOldMail | nexus/network/service.py:111-121 | one mail 100 days ago takes a first-degree connection from 40 to 32 |
| NetworkRuns.ValidEveryRun | nexus/network/service.py:64-170 | in every history one person an email, one identity an account and external id, one edge an owner, person and provider, exact edge counts, and identity counts that add up |
| NetworkRuns.CountsStayExactIff | nexus/network/service.py:92-106 | identity counts stay exact exactly when a known identity resolves to the person it had |
| NetworkRuns.CountsGoWrong | nexus/network/service.py:92-106 | two syncs after which a count is wrong: the contact comes back under another address |
| NetworkRuns.MirroredEveryRunIff | nexus/network/service.py:159-170 | edges follow their account's switch in every history exactly when no member connects two accounts of one provider |
| NetworkRuns.PrivateUnlessPooled | nexus/network/service.py:37-42 | then an edge is seen by others exactly while its account's switch is on |
| NetworkValues.StrengthIsPoints | nexus/network/strength.py:14-54 | an edge is as strong as the points of its relation, its last touch and its contacts, and at most 100 |
| NetworkValues.BatchLeavesValues | nexus/network/service.py:108-150 | after a batch the edge of a person's last identity has the relation, strength, statistics and pooling its touchpoints give, mail before meetings before what the provider said |
| NetworkValues.IdentityLeaves | nexus/network/service.py:76-106 | one identity changes no other person, makes a person with its columns, domain and search text only if none is found, and leaves a row cut to the columns that points to the person |
| NetworkValues.KeyIsMatch | nexus/network/resolution.py:36-40 | resolution keys are equal exactly when the matching takes the contacts for one person |
| NetworkService.NetworkGraph.ResolvePerson | nexus/network/resolution.py:46-87 | the person found, or a new last one |
| NetworkService.NetworkGraph.ScanByName | nexus/network/resolution.py:68-72 | the first match among the first 500 persons without email |
| NetworkService.NetworkGraph.IngestIdentity | nexus/network/service.py:76-150 | one identity: its person, its row, its edge, the counters |
| NetworkService.NetworkGraph.PutIdentity | nexus/network/service.py:87-106 | the identity row found and pointed at the person, or added |
| NetworkService.NetworkGraph.PutEdge | nexus/network/service.py:123-150 | the edge found and overwritten, or added |
| NetworkService.NetworkGraph.IngestBatch | nexus/network/service.py:64-156 | the whole batch, the numbers of rows added, the account's cursor and time |
| NetworkService.NetworkGraph.SetAccountPooling | nexus/network/service.py:159-170 | the switch, and the edges the account brought in |
| NetworkService.AggregateTouchpoints | nexus/network/service.py:45-61 | one record an external id seen, with its counts and times |
| RateLimit.Limiter.Check | nexus/core/ratelimit.py:34-57 | the pop loop and its answer, and the table left, also when it overflows |
| RateLimit.Limiter.Reset | nexus/core/ratelimit.py:62-64 | the table is empty afterwards |
| RateLimit.AllowedIffRoom | nexus/core/ratelimit.py:42-57 | in every history a request is let through exactly when fewer than the limit were in the window that ends with it, counting from when the table was last emptied, which up to 50000 keys never happens |
| RateLimit.AtMostLimitInAnyWindow | nexus/core/ratelimit.py:42-57 | between two emptyings of the table, and with up to 50000 keys at all, in no interval as long as the window are more than the limit let through |
| RateLimit.SpacedApart | nexus/core/ratelimit.py:48-57 | between two emptyings accepted hits a limit apart are more than a window apart in time |
| RateLimit.OnlySinceCounts | nexus/core/ratelimit.py:43-47 | the table depends only on the history since it was last emptied |
| RateLimit.SinceIsEnd | nexus/core/ratelimit.py:43-47 | and what was let through since then is the end of all that was let through |
| RateLimit.RetryAfterIsRight | nexus/core/ratelimit.py:50-56 | a refused client that waits as told is let through, whatever others do; one a whole second early is refused exactly unless the table was emptied meanwhile |
| RateLimit.FloodLetsThrough | nexus/core/ratelimit.py:43-57 | after 50000 other clients a refused one is let through at once |
| Registry.Policy.Call | nexus/integrations/registry.py:85-102 | one isolated call under budget and breaker |
| Registry.Policy.Allow | nexus/integrations/registry.py:76-83 | allowed exactly while closed and within budget |
| Registry.StateIsLog | nexus/integrations/registry.py:85-102 | the counters are what the calls a source really got amount to |
| Registry.CalledIff | nexus/integrations/registry.py:62-102 | a source is called exactly while within budget and not tripped; a tripped source is never called again |
| Registry.MergeCompany | nexus/integrations/registry.py:117-126 | the loop over the fields fills exactly the empty ones |
| Registry.MergeExtends | nexus/integrations/registry.py:117-126 | merging a candidate into the merge of a group is the merge of the longer group |
| Registry.MergeAllIsMerge | nexus/integrations/registry.py:196-218 | the pool has one company a domain, each field the first non-empty one in priority order with its source, the best confidence, in first-seen order |
| Registry.DataSourceRegistry.CompanySearch | nexus/integrations/registry.py:181-223 | the nested loops give the search of the specification, with its cache and the calls made |
| Registry.DataSourceRegistry.AddAll | nexus/integrations/registry.py:203-218 | one source's candidates go into the pool in order |
| Registry.SearchIsMerge | nexus/integrations/registry.py:196-223 | an uncached search returns the merged companies in first-seen order, cut to the limit |
| MergedCompanies.CompaniesHoldFirst | nexus/integrations/registry.py:117-126 | every company of a search has a domain, and in each field but the name what a candidate of that domain, whatever its case, first had to say, with its source, or nothing |
| MergedCompanies.OneCompanyADomain | nexus/integrations/registry.py:203-218 | there is exactly one company for each domain among the candidates, and none for any other |
| Registry.RepeatedQueryIsFree | nexus/integrations/registry.py:190-194 | a query asked again, at any time, gets the same result, calls nobody and changes nothing |
| Registry.SearchesKeepThePolicy | nexus/integrations/registry.py:198-202 | over any history of searches no source is called beyond its budget, and open is tripped |
| Envelope.Build | nexus/orchestration/intake.py:269-315 | refines the specification of the envelope |
| Envelope.TrimOldest | nexus/orchestration/intake.py:304-306 | the oldest messages go, no more than must |
| Envelope.LongestSuffixThatFits | nexus/orchestration/intake.py:278-310 | the messages kept are the longest end of the window that fits beside the capped summary, which is cut further only when none is kept |
| Envelope.OverBudgetIff | nexus/orchestration/intake.py:299-315 | the estimate exceeds the budget exactly when the structured part leaves no room, and then by the least possible |
| Envelope.CapHolds | nexus/orchestration/intake.py:293-296 | the summary is a prefix, within a cap that is not negative |
| Envelope.CapBoundsIff | nexus/orchestration/intake.py:293-296 | the cap bounds every summary exactly when it is not negative |
| Envelope.RebuildChangesNothing | nexus/orchestration/intake.py:269-315 | with a window and a cap that are not negative, building from an envelope's own parts gives it back |
| Envelope.RebuildIff | nexus/orchestration/intake.py:269-315 | which it does for all inputs exactly when neither is negative |
| Envelope.MoreBudgetKeepsMore | nexus/orchestration/intake.py:304-310 | a larger budget never loses what a smaller one kept |
| Envelope.WindowBoundsIff | nexus/orchestration/intake.py:297 | the window bounds the messages exactly when it is at least 1 |
| Envelope.UnionCi | nexus/orchestration/intake.py:230-238 | refines the union |
| Envelope.UnionHasBoth | nexus/orchestration/intake.py:230-238 | a union starts with the existing words and has the words of both and no others |
| Envelope.UnionAddsOnce | nexus/orchestration/intake.py:230-238 | and nothing new twice, whatever its case |
| Envelope.MergeIdempotent | nexus/orchestration/intake.py:241-249 | merging the same turn twice is merging it once |
| Envelope.MergeAssociates | nexus/orchestration/intake.py:241-249 | turns can be merged in any grouping |
| Envelope.LastTurnDecides | nexus/orchestration/intake.py:241-249 | over any turns the last one to give a single-valued slot decides it, and a slot none gives is kept |
| Envelope.EveryTurnCounts | nexus/orchestration/intake.py:241-249 | over any turns a list slot has the words it had and those of every turn, and no others |
| Scoring.ComputeWeights | nexus/outcomes/service.py:173-195 | the nested loops give the weights of the specification |
| Scoring.LearnedWeightsShape | nexus/outcomes/service.py:151-195 | weights are learned exactly with enough signal and a known axis; before rounding they sum to 1, each at least half its default, and above it exactly with more than its default share |
| Scoring.RoundedWeightsShape | nexus/outcomes/service.py:195 | after rounding within 0.0002 of 1, still at least half the defaults |
| Scoring.LearnedByShares | nexus/outcomes/service.py:151-195 | learned from five points on, one a reply, two a meeting, four a deal, then each axis weighs, to four digits, half its default and half its share; else the defaults; and the size of the sample |
| Scoring.OrderIrrelevant | nexus/outcomes/service.py:158-189 | the order of the outcomes, and outcomes that are not positive, do not matter |
| Scoring.BandScoreShape | nexus/relevance/engine.py:57-67 | between 0 and 1, 1 exactly in the band, 0 exactly a width away, falling on both sides |
| Scoring.BandFallsEvenly | nexus/relevance/engine.py:57-67 | outside the band every step away costs the same part of the width |
| Scoring.BandScoreEnds | nexus/relevance/engine.py:57-63 | neutral without headcount or band; an open end is 0 or a billion |
| Scoring.ScoreIcpFit | nexus/relevance/engine.py:71-134 | the sub-scores one after the other, and the weighted score |
| Scoring.FitByAxis | nexus/relevance/engine.py:71-134 | the fit is the rounded mean of the axis scores, each weighing what was set by hand, else learned, else 0.35, 0.30, 0.15 and 0.20 |
| Scoring.ScoreIsBetween | nexus/relevance/engine.py:131-132 | the score lies between the rounded extreme sub-scores |
| Scoring.ScoreIsMonotone | nexus/relevance/engine.py:131-132 | a better sub-score never lowers it |
| Scoring.ScoreIsScaleFree | nexus/relevance/engine.py:131-132 | only the proportions of the weights count |
| Scoring.LearnedFitIsAPercentage | nexus/relevance/engine.py:78-134 | with learned weights the fit is from 0 to 100 |
| Scoring.ScoreInRangeIff | nexus/relevance/engine.py:131-132 | for any weights, the rounded score stays in 0..100 for all sub-scores exactly when 200 times the weights against the sign of their sum, or of 1 if that is 0, do not exceed it |
| Scoring.FitInRangeIff | nexus/relevance/engine.py:88-132 | so does the fit of every account to every profile with those weights given by hand |
| Scoring.CancellingWeights | nexus/relevance/engine.py:131-132 | weights that cancel out score -100 |

## Left out

- Planner.Plan: does not model the inputs a step gets from the goal; the engine hands them to the tool unread.
- Engine.OrchestrationEngine.DecideApproval: does not model the reviewer's edits, mailbox and delivery mode, which go into the draft on the blackboard before the tool runs; what the tool makes of a draft is `Outbound.Send`, for every draft.
- Engine.OrchestrationEngine.RedraftApproval: does not model the new text, only when it is refused and that it touches no step or approval.
- Engine: blackboard contents, step inputs and outputs, error and reason texts and the in-process event bus are not modelled; the list in a skip event is a set; two creations at the same moment are kept apart by the database.
- Rows are values in sequences held by their owner, so two references to one row, and the order in which a query without ORDER BY returns rows, are not captured; rows are found in the order they were added.
- One service call is one atomic step: flushes are not modelled, and the rollback of a request (nexus/api/deps.py:50-64) only where it matters, in approving a touch.
- Outbound.Send: an exception of the push itself counts as before the push, so that nothing was handed over.
- Cadences: validating a new cadence, the row locks and limit of the claim query, the account and contact columns of call tasks and the cadence report are left out; times are seconds in one zone.
- Campaigns: sourcing a contact and drafting again is one input of the draft of a target.
- Idempotency: the hash that makes the composite key is taken to be injective.
- Text: letter case and white space are ASCII, where lower-casing keeps lengths, in the network, the registry, the envelope and the scores alike.
- Network: the hash in a resolution key is taken to be injective; a title, location or photo that only later syncs would fill is not modelled.
- Registry: candidates are values, so a provider that keeps and changes a candidate it returned is not captured; the cache key is the query itself; the other capabilities share the policy and cache and are left out.
- Envelope: the serialized profile is one text; slots whose value has the wrong type are not modelled.
- Scoring: floating point is real arithmetic; the reasons of a score are left out.
- Mail transport, CRM, search, browser, LLM calls, HTTP routing, authentication and the user interface are outside.
