# Verified model of the seller-automation server

A Dafny model of the parts of the server whose correctness rests on protocols and on exact text
handling, with proofs of what those parts promise. Each file is one component; a method mirrors the
statements of the code it names, and the lemmas beside it say what holds over every run.

| files | component |
|---|---|
| `RunTable`, `RunProtocol`, `RunDelivery`, `RunCount` | automation runs: the stored row, every interleaving of workers, scheduler and operator, the stored proof and count |
| `RunCalls`, `RunEnds`, `RunCoordinator`, `RuleRun`, `RunPieces`, `RunDeferral` | the action loop of one worker among others, why it stops and how it closes the run, from a rule's frozen plan on; deferred plans |
| `ActionPlanner`, `DeliveryProof` | from a rule to a plan; the delivery proof a run carries |
| `CardText`, `CardStock`, `CardSending`, `TemplateDelivery`, `PlatformActions`, `ActionExecutor` | the executors: stock lines taken, sent and put back; texts and templates; price and shipment submissions; what their answers mean for all tries of a run |
| `MsgPackText`, `MsgPackReader`, `MsgPackKeys`, `MsgPackFormat`, `MsgPackDecoder`, `MsgPackRoundTrip`, `MsgPackObjects` | the MessagePack decoder with its key cache, and the objects it builds |
| `BrowserPool`, `AccountManager` | two concurrent managers, as steps of any number of callers |
| `DataKey`, `Credential`, `AmountFilter`, `Money` | first-start key file, conditional credential writes, the amount filter, the two money readers |

How the concurrent parts are modelled: a state, one step for each statement or section under a lock,
and an invariant kept by every step; a run is any sequence of enabled steps. Store statements may fail
without effect, or take effect while the caller sees an error, and a worker may stop anywhere. Where
the code is a procedure, a class method executes the same sections while the others act between any
two of them. It relies on them only through the contract of a method `Others`, and a lemma
`OthersStayWithinContract` shows that every run of theirs meets it; for card stock, where others may
add and take any lines, the expected amount follows them by definition. The runs of `World` are runs
of the step model: its invariant holds a history that leads there from the new row. The environment
(sender, platform, remote card service, clock, database faults) is nondeterministic.

## What the proofs found

Properties that do not hold of the code as it stands are stated with the exact condition under which
they do, and with a concrete input.

- A worker that closes a run as failed overwrites the sent count with the one it read. The count stays
  right exactly when nothing with a result was passed behind its back
  (`RunCount.FinishKeepsCountExactly`, `RunCount.StaleCloseLosesCount`). The operator's decision keeps it
  right exactly when the hand-over to the review took nothing out of it and, for a retry, added nothing;
  with skipped actions in it the count is the number of confirmed results exactly when the results of
  their unsure tries were zero (`RunCount.ResolveKeepsCountExactly`, `RunCount.SkippedResultsAreReviewed`,
  `RunCount.SkippedResultIsCounted`).
- A run that the operator has tried again goes on without its delivery proof exactly when a close for good
  has dropped one since the decision before (`RunDelivery.RetryLosesProofExactly`, `RunDelivery.KeptIsFresh`,
  `RunDelivery.LostCloseLosesProof`).
- A failed run that may be retried keeps its proof also after the last attempt, when nothing claims it
  any more (`RunTable.FinishLeavesProofBehindExactly`, `RunTable.LastAttemptKeepsProof`).
- A template reports that nothing was done although a message went out, exactly when a later message
  cannot be loaded for a reason that is not an unknown outcome (`TemplateDelivery.MisreportsExactly`,
  `TemplateDelivery.MisreportedTemplate`). All other denials are true: the effect of a position happens
  once in every run, unless it is a template that broke off like this (`ActionExecutor.Execute`,
  `ActionExecutor.EffectsHappenOnce`).
- A deferred task finds its run again exactly when the run's number is below a million
  (`DeferredRunId.RunIsFoundExactly`): the number goes through JSON as floating point and is printed
  with an exponent. A run picked up without its delay position stops at the same delay again
  (`RunPieces.ForgottenDelayStopsAgain`).
- Manual delivery of a stored rule panics exactly when a disabled card action of it has settings with the
  value null: saving a rule accepts null there, as it looks closer at enabled actions only. Otherwise it runs the
  automatic plan without delays (`ActionPlanner.StoredManualPlanIsThePlan`, `ActionPlanner.DisabledNullPanics`).
- A key that ends within a character is read differently the second time (`MsgPackKeys.TransparentExactly`,
  `MsgPackKeys.CutKeyIsNotTransparent`), and a string of more than 64 bytes loses a leading byte order
  mark (`MsgPackReader.MarkIsLostExactly`).
- A browser entry leaves the pool without being closed exactly when a new one is inserted over it, which
  happens only after it has lost its connection (`BrowserPool.LeftOpenExactly`, `BrowserPool.LeavesBrowserOpen`).
- A StopAllContext that returns without error has missed an instance exactly when another call took the
  fence down and the instance was started after that (`AccountManager.StopAllMissesExactly`,
  `AccountManager.OverlappingStopAllMissesInstance`).
- The key file holds every key in use exactly as long as no file is removed while its key is in use; only
  a failed sync or close removes one so late, and the next process then goes on with a key of its own
  (`DataKey.KeysAgreeExactly`, `DataKey.OnlySyncFaultsRemoveLate`, `DataKey.LateRemovalSplitsKeys`,
  `DataKey.FailedSyncSplitsKeys`).
- "-0.5" is 50 cents for an order and -50 for a batch, and prices whose product overflows 64 bits can be
  accepted (`Money.ReadersAgreeExactly`, `Money.MinusZeroDisagrees`, `Money.AcceptedPriceIsExactly`,
  `Money.HugePriceIsAccepted`).

## Model

| member | source | states |
|---|---|---|
| `RunProtocol.StepKeepsInv` | internal/automation/run_coordinator.go:214-336 | every step of workers, scheduler and operator keeps the invariant on tries, cursor and started mark |
| `RunProtocol.AtMostOnce` | internal/automation/run_coordinator.go:214-336 | in every reachable state all tries of a position but the last reported that nothing was done and had their abort stored |
| `RunProtocol.NoEffectTwice` | internal/automation/run_coordinator.go:214-336 | if reports that nothing was done are true, no position has its external effect twice |
| `RunProtocol.SuccessOnlyAtEnd` | internal/automation/run_coordinator.go:41-152 | a run is stored as successful only with the cursor past the plan and no open action |
| `RunProtocol.ContinueKeepsInv` | internal/db/automation_recovery.go:108-153 | the operator's continue skips one position and frees the mark without breaking the invariant, whatever the review has stored |
| `RunProtocol.ConfirmFollowsNoUnknownCard` | internal/db/automation_recovery.go:172-225 | in every run with any operator: when the shipment is confirmed, each card action before it was done, or was skipped after all its tries reported that nothing was done |
| `RunProtocol.ReviewKeepsEvidence` | internal/automation/run_coordinator.go:264-285 | the proof left for review holds the worker's texts and pictures, the action's and those in question, in this order |
| `RunProtocol.RetriedExactly` | internal/automation/run_coordinator.go:126-131 | which failures are tried again, from the error of the action to the stored row: safe ones always but in a manual delivery, forbidden ones never, others while nothing was sent |
| `RunDelivery.StepKeepsHealthy` | internal/automation/run_coordinator.go:214-336 | every step, operator included, keeps the stored proof equal to the one computed from the positions passed, also in the hands of a worker of the row's attempt; an unsure action must still have the row's cursor, and a retried row its proof, which `KeptIsFresh` traces to the closes before |
| `RunDelivery.NoOperatorIsFresh` | internal/automation/run_coordinator.go:214-336 | without the operator those two conditions always hold |
| `RunDelivery.RetryLosesProofExactly` | internal/db/automation_recovery.go:132-138 | after every run whose retried rows had their proofs, the operator's next retry spoils the stored proof if and only if a close for good has dropped one since the decision before |
| `RunDelivery.KeptIsFresh` | internal/db/automation.go:699-718 | over every run: the rows tried again have their proofs if and only if none of them was closed for good with a proof since the operator's decision before |
| `RunDelivery.LostCloseLosesProof` | internal/automation/center.go:508-535 | a concrete run: a manual close whose reply is lost, a review, a retry, and the proof of a sent card is gone |
| `RunDelivery.AdvanceStoresProof` | internal/automation/run_coordinator.go:298-330 | the proof the advance statement stores is the proof the worker goes on with |
| `RunDelivery.MergedKeepsAll` | internal/automation/run_coordinator.go:354-359 | the proofs of the positions merge to all their texts and all their pictures in order |
| `RunDelivery.ConfirmAfterAllCards` | internal/automation/event_pipeline.go:103-128 | for a paid plan, operator included: the shipment is confirmed only after every card was done or skipped as surely not done, with the proof of the positions passed; if none was skipped, the first confirmation gets the proofs of the cards in sending order and a later one nothing; no retried row may have been closed for good with a proof |
| `RunDelivery.ConfirmWithoutOperator` | internal/automation/event_pipeline.go:103-128 | without the operator, and without any condition on the run, every card was done |
| `RunCount.FinishKeepsCountExactly` | internal/db/automation.go:699-718 | closing as failed keeps the count right if and only if no position that the worker knows no result of had one |
| `RunCount.SentCountIsSum` | internal/automation/run_coordinator.go:214-336 | operator included, the stored count is the sum over the positions passed: results of those advanced, and what the review had added for those skipped; workers close with the row's cursor, and the operator's decisions respect what the hand-over did to the count |
| `RunCount.ResolveKeepsCountExactly` | internal/db/automation_recovery.go:132-138 | after every such run the operator's decision keeps the count right if and only if the statements that handed the run to the review since the decision before took nothing out of the count and, for a retry, added nothing |
| `RunCount.SkippedResultsAreReviewed` | internal/automation/run_coordinator.go:264-285 | when workers close and hand over with the row's cursor, no resolution spoils the count; a skipped position counts the results its unsure try reported, and the count is the number of advanced results if and only if those are zero |
| `RunCount.SkippedResultIsCounted` | internal/db/automation_recovery.go:132-138 | a concrete run: one of two units of a card is confirmed and the other unknown, the operator goes on, and the count is one although no position was advanced |
| `RunCount.StaleCloseLosesCount` | internal/automation/run_coordinator.go:62-84 | a concrete run in which a stale close resets the count and the run may be claimed again |
| `RunCoordinator.OthersStayWithinContract` | internal/automation/run_coordinator.go:214-336 | any steps of others keep the invariants and the logs of all workers true, and do not move this worker |
| `RunCoordinator.StepKeepsLogs` | internal/automation/run_coordinator.go:298-334 | every advance a worker has seen stored is in the history for good, as the try of that worker with that proof and result which passed the position |
| `RunCoordinator.World.DeferAction` | internal/automation/run_coordinator.go:232-249 | a delay ends the worker when lease and task were stored and fails it otherwise |
| `RunCoordinator.World.StartAction` | internal/automation/run_coordinator.go:252-259 | the worker holds a checkpoint exactly when it was told so |
| `RunCoordinator.World.AbortAction` | internal/automation/run_coordinator.go:286-296 | a released checkpoint leads to the action's own error, a failed release to quarantine |
| `RunCoordinator.World.AdvanceAction` | internal/automation/run_coordinator.go:298-334 | the worker's cursor, count and proof move on exactly when the advance was confirmed |
| `RunCoordinator.World.ReviewActionResult` | internal/automation/run_coordinator.go:264-285 | an unsure action ends the worker after its result and proofs were handed to review |
| `RunCoordinator.World.PerformAction` | internal/automation/run_coordinator.go:252-334 | one round ends not opened, released, under review or done, and says where the worker and its log then stand |
| `RunCoordinator.World.PassDelay` | internal/automation/run_coordinator.go:226-251 | a position is acted on only without delay, with delays off, or after its delay |
| `RunCoordinator.World.ExecuteRunActions` | internal/automation/run_coordinator.go:214-336 | under interference: the calls follow the plan from the stored cursor, each with the proof left by the ones before, and each is in the history as the try that passed its position; the loop ends at the plan's end, at a stored deferral, at an error without effect, or in review |
| `RunCoordinator.World.CloseRun` | internal/automation/run_coordinator.go:62-88 | the close is tried with the given status, and stored with status, count and error marker, or the run goes to review |
| `RunCoordinator.World.ExecuteRule` | internal/automation/run_coordinator.go:41-152 | every end has its recorded reason: a run no longer running is skipped; a paid order without a card is closed as failed before any action, and no other run is; the plan ends with a stored deferral, at an action of open outcome, with a close as failed for a recorded failure of a delay, deferral, checkpoint or action, or with a close as successful behind the last position; success means all positions from the stored cursor, as the history records, with the count added up |
| `RunCoordinator.World.DeliverManually` | internal/automation/center.go:445-540 | no delay stops it; it tries to close the run as failed for a recorded failure and as successful behind the last position, but for an open outcome; a failure behind results can never be claimed again |
| `RunCoordinator.World.RecoverRun` | internal/automation/scheduler.go:197-284 | an open action, unreadable data and a withdrawn rule go to review, a paused account and a missing connection put the run off, an unreadable rule leaves it alone; otherwise a claim is tried, and the run is executed if and only if it was due in the state of the history in front of the claim |
| `RunCoordinator.World.QuarantineForReview` | internal/automation/scheduler.go:287-300 | the scheduler's quarantine keeps all invariants whatever attempt it read |
| `RunEnds.ReachableNotes` | internal/automation/run_coordinator.go:214-336 | in every run a worker about to close it as failed has a recorded cause that explains its error, and one at work has none |
| `RuleRun.ExecuteTask` | internal/automation/run_coordinator.go:89-95 | with the rule's frozen actions: the card counts as missing exactly for a paid order none of whose enabled card actions matches; then nothing is called and the run does not succeed; each action is called without a delay or after it |
| `RuleRun.FrozenPlanKeepsCards` | internal/automation/event_pipeline.go:103-139 | the frozen plan of a paid order has a matching card if and only if the rule has one |
| `RuleRun.DelaysOf` | internal/automation/center.go:582-606 | a card waits for its own delay unless the action overrides it, any other action for its own |
| `RunDeferral.NextReadsWhatLastHeld` | internal/automation/run_coordinator.go:226-251 | through the stored row, a worker that comes after an undisturbed deferral reads exactly the cursor, count and proof the deferred one held, whatever statements that leave them alone came between |
| `RunDeferral.LoopMakesStay` | internal/automation/run_coordinator.go:214-336 | the history, log and last step that ExecuteRule ensures for a deferred or successful run are one stay of its worker in the protocol |
| `RunDeferral.PiecesMakeOnePass` | internal/automation/run_coordinator.go:214-336 | any number of workers that follow each other through the row, each deferred at a delay, make the calls, with the proofs, of one undelayed pass |
| `RunDeferral.PiecesEndLikeOnePass` | internal/automation/run_coordinator.go:214-336 | the row they leave is past the plan and holds the sent count and the proof of that pass |
| `RunDeferral.StaysAreRecorded` | internal/automation/run_coordinator.go:298-334 | at the end the history holds every one of these calls as the try that passed its position |
| `RunDeferral.TwoStays` | internal/automation/run_coordinator.go:226-251 | a concrete run from the new row in which two workers share a plan |
| `RunDeferral.DeferredOncePerDelay` | internal/automation/run_coordinator.go:226-251 | when nothing fails, workers are deferred at every delayed position once, in order, and nowhere else |
| `RunDeferral.AtMostOneDeferralPerPosition` | internal/automation/run_coordinator.go:226-251 | so no position is deferred twice |
| `RunPieces.ForgottenDelayStopsAgain` | internal/automation/center.go:360-372 | without the remembered position a resumed run stops at the same delay before any action |
| `DeferredRunId.RunIsFoundExactly` | internal/automation/center.go:348-357 | the run number survives JSON, printing and parsing if and only if it is below a million |
| `DeliveryProof.GroupingDoesNotMatter` | internal/automation/run_coordinator.go:354-359 | merging per action equals appending unit by unit, whatever text was stored before |
| `DeliveryProof.AccumulateJoinsUnits` | internal/automation/action_executor.go:553-562 | appending units one by one gives the trimmed non-empty units joined by line breaks |
| `DeliveryProof.ProofTextOfRun` | internal/automation/action_executor.go:553-562 | for every split into actions and every resumption the run's text is that of all units |
| `GoText.TrimSpaceCutsEndsOnly` | internal/automation/action_executor.go:554-554 | trimming removes white space at both ends and nothing else |
| `GoText.SpaceIsWhiteSpace` | internal/automation/action_executor.go:554-554 | white space is the Unicode property of that name |
| `OrderSpec.EqualMeansSameColumns` | internal/orderspec/spec.go:26-71 | two specifications are equal if and only if both are well formed and their trimmed columns agree |
| `OrderSpec.SemicolonsSplit` | internal/orderspec/spec.go:43-71 | columns are split at the two semicolons and at nothing else, and trimmed |
| `OrderSpec.WellFormedExactly` | internal/orderspec/spec.go:12-32 | a specification is well formed if and only if it has as many names as values and none is empty |
| `ActionPlanner.Plan` | internal/automation/event_pipeline.go:103-128 | the loops compute the filter of matching cards followed by the confirmations, or all enabled actions |
| `ActionPlanner.HasMatchingSendCard` | internal/automation/event_pipeline.go:131-139 | true if and only if some enabled card matches the order |
| `ActionPlanner.MatchesSameColumns` | internal/automation/action_executor.go:641-654 | an action takes part for exactly the orders with the same columns of names and values, none for none |
| `ActionPlanner.UnpaidPlanIsAllEnabled` | internal/automation/event_pipeline.go:103-128 | an unpaid plan is exactly the enabled actions, in the order of the rule |
| `ActionPlanner.PaidPlanIsCardsThenConfirmations` | internal/automation/event_pipeline.go:103-128 | a paid plan is exactly the enabled matching cards and then the enabled confirmations, both in the order of the rule |
| `ActionPlanner.PaidPlansPutCardsFirst` | internal/automation/event_pipeline.go:103-128 | a paid plan holds exactly the matching cards and the confirmations, all cards first, in the shape that `RunDelivery.ConfirmAfterAllCards` needs |
| `ActionPlanner.ConfirmationsFollowTheRulesCards` | internal/automation/event_pipeline.go:103-128 | from the rule's own actions, operator included: when a run of their plan confirms the shipment, every matching card was sent or skipped as surely not sent, and with none skipped the first confirmation carries exactly their proofs |
| `ActionPlanner.ConfirmationsFollowNoUnknownCard` | internal/db/automation_recovery.go:172-225 | the first half of it holds in every run, without any condition |
| `ActionPlanner.ImmediateManualActions` | internal/automation/event_pipeline.go:142-161 | every action loses its delay and every card gets an explicit one; the loop panics if and only if a card has null settings |
| `ActionPlanner.ManualActionsNeverWait` | internal/automation/center.go:582-606 | whatever delay the card itself has, a manual action waits for nothing |
| `ActionPlanner.ManualPlanIsThePlan` | internal/automation/event_pipeline.go:142-161 | of the two functions, for any settings: the manual plan is the automatic one without delays if and only if no card of the rule has null settings and none whose settings are no object is picked up |
| `ActionPlanner.StoredManualPlanIsThePlan` | internal/application/automation/rules_sku.go:37-47 | for the rules that saving and migration let through to an order: the manual plan is the automatic one without delays if and only if no disabled card has null settings, and with one the manual delivery panics |
| `ActionPlanner.DisabledNullPanics` | internal/automation/event_pipeline.go:153-155 | a concrete rule with a disabled card that is delivered automatically and panics manually |
| `CardText.SplitLines` | internal/db/delivery.go:354-385 | the scanning loop returns the non-blank pieces between line breaks |
| `CardText.BreaksAreTheseTwo` | internal/db/delivery.go:354-385 | a line feed, a carriage return and the two together end a line, and no other character does |
| `CardText.LinesOfJoin` | internal/db/delivery.go:388-399 | splitting joined lines gives the lines back |
| `CardText.TakingRemovesTheFirst` | internal/db/delivery.go:190-198 | what is written back holds all lines but the first |
| `CardText.PuttingBackAddsInFront` | internal/db/delivery.go:217-251 | putting a line back adds it, trimmed, in front and changes nothing else |
| `CardText.TakeThenPutBack` | internal/db/delivery.go:173-251 | taking and putting back restores the stock up to white space around lines |
| `CardStock.Cards.ConsumeBatchData` | internal/db/delivery.go:173-212 | under concurrent changes a returned line is the first of the stock it was removed from, and every line is either in stock or accounted to whoever took it; with nobody else around a line is taken as long as there is one |
| `CardStock.Cards.RestoreBatchData` | internal/db/delivery.go:217-251 | a success moves one line from this worker back into the stock, a failure changes nothing; with nobody else around it succeeds on every stored card |
| `CardStock.Cards.SendDataCard` | internal/automation/card_delivery.go:121-160 | every line taken is delivered, of unknown fate, stranded by a failed restore, or in stock again; the one line that was surely not sent is tried to be put back; the messages are the rendered lines, the result counts and proves the delivered ones, and denies everything only truthfully |
| `CardSending.SendPlainText` | internal/automation/action_executor.go:121-134 | a blank text is done without a message; otherwise one message, counted when delivered, denied only when the sender says it was not sent |
| `CardSending.SendPlainCard` | internal/automation/card_delivery.go:43-76 | every message is the card's own content, one for each unit until one is not delivered; count and proof are those of the delivered messages; nothing is sent exactly when there is nothing to send, and nothing is denied that may have been sent |
| `CardSending.SendApiCard` | internal/automation/card_delivery.go:79-118 | every answer with a content is handed over as it is; the error says whether a request may have reached the service; only an undispatched first request counts as nothing done |
| `TemplateDelivery.TemplateAction.RestoreReservations` | internal/automation/template_action_executor.go:245-261 | all lines are tried in reverse order; what is not back in stock is reported |
| `TemplateDelivery.TemplateAction.LoadBatchLines` | internal/automation/template_action_executor.go:199-215 | the lines returned are those taken, all of them on success |
| `TemplateDelivery.TemplateAction.LoadMessageValues` | internal/automation/template_action_executor.go:147-180 | on success every key is bound and has the value its binding asks for: as many copies of a text card's content, or as many lines taken from stock or answered by the service, joined; after an error the lines are back in stock, stranded although tried, or lost; they are lost if and only if a key without a binding is met after some were taken, and then all of them are |
| `TemplateDelivery.TemplateAction.SendMessage` | internal/automation/template_action_executor.go:62-98 | lines stay taken only for a message that was handed to the sender; the values of a blank message whose lines went back are forgotten |
| `TemplateDelivery.TemplateAction.SendMessages` | internal/automation/template_action_executor.go:60-106 | the loop over the messages ends with the result of what became of each, and the sender's answers tell which |
| `TemplateDelivery.TemplateAction.SendTemplate` | internal/automation/template_action_executor.go:48-106 | another specification, no messages or a card that cannot be prepared: nothing is done, and the answer says so; else conservation over all messages, each rendered from the values of its keys: each line is in stock, in a message handed over, stranded, or lost to an unbound key of the last message tried, and no line is lost when all keys are bound |
| `TemplateDelivery.TemplateAction.ClearValues` | internal/automation/template_action_executor.go:264-269 | a message rendered empty forgets exactly its own keys |
| `TemplateDelivery.MisreportsExactly` | internal/automation/template_action_executor.go:64-67 | when the action denies a message that went out |
| `TemplateDelivery.MisreportedTemplate` | internal/automation/template_action_executor.go:64-67 | two concrete messages, the second with one line of a data card: if the first is delivered and the line cannot be taken, the action reports that nothing was done |
| `TemplateDelivery.HonestOtherwise` | internal/automation/template_action_executor.go:77-105 | in every run that does not end in a failed load or a failed restore of an empty message, count and proof are those of the messages sent |
| `TemplateDelivery.EndsExactly` | internal/automation/template_action_executor.go:60-106 | success if and only if all messages went well and one was sent; safe to retry if and only if nothing was sent or fetched and all lines are back; for review, with the text in question, after an unknown delivery or a refusal behind something sent or fetched |
| `PlatformActions.Platform.AdjustOrderPriceAttempt` | internal/automation/action_executor.go:305-357 | one submission of the price when the session opens, a second one exactly after an expired session whose login was restored; the error says whether the last may have taken effect |
| `PlatformActions.Platform.AdjustOrderPriceWithRetry` | internal/automation/action_executor.go:263-292 | another try follows exactly while the platform is busy, five were not made and nobody cancels; at most ten submissions and nothing after one that may have taken effect |
| `PlatformActions.Platform.AdjustOrderPrice` | internal/automation/action_executor.go:246-260 | with an order and a price the platform is asked for that price, otherwise nothing is; the result denies the change if and only if every submission was turned down |
| `PlatformActions.Platform.ConfirmShipmentAttempt` | internal/automation/action_executor.go:162-236 | one submission with the proof when the session opens, a second one exactly after an expired session whose login was restored; success exactly when it was accepted and everything stored |
| `PlatformActions.Platform.ConfirmShipment` | internal/automation/action_executor.go:146-159 | with the setting off and no force nothing is submitted and the action succeeds; otherwise the order is submitted with exactly the given proof as soon as the session opens; a denial is true, an unsure result stands for one submission |
| `PlatformActions.AtMostOneStands` | internal/automation/action_executor.go:263-357 | in such a log at most one submission may have taken effect |
| `ActionExecutor.Execute` | internal/automation/action_executor.go:108-138 | whatever the action: what it asks for was done if the answer is success (all units, the text, the price, the shipment with its proof), nothing where nothing is asked for; what is counted had an effect, and a denial is true unless it comes from a template whose message went out and whose later one could not be loaded |
| `ActionExecutor.EffectsHappenOnce` | internal/automation/run_coordinator.go:214-336 | when the answers of all tries are such executors' answers, in every run a position that is tried again has had no effect yet, unless it is a template that broke off |
| `MsgPackText.MasksAreRemainders` | frontend/public/xianyu_js_version_2.js:140-157 | the loop's masks and shifts on bytes are the remainders and sums used in the model |
| `MsgPackText.LoopReadsUtf8` | frontend/public/xianyu_js_version_2.js:134-164 | on well-formed UTF-8 the loop yields exactly the UTF-16 code units and stops at the end |
| `MsgPackText.Utf16KeepsTextsApart` | frontend/public/xianyu_js_version_2.js:134-164 | different texts have different code units |
| `MsgPackReader.Reader.Su` | frontend/public/xianyu_js_version_2.js:181-308 | returns the ASCII text and advances by its length, or leaves the cursor where it was |
| `MsgPackReader.Reader.Sl` | frontend/public/xianyu_js_version_2.js:169-179 | the same for any length |
| `MsgPackReader.Reader.So` | frontend/public/xianyu_js_version_2.js:134-164 | fast path, long text and chunked loop together give the text and end of the plain loop or the platform decoder |
| `MsgPackReader.AsciiReadersAgree` | frontend/public/xianyu_js_version_2.js:134-308 | the ASCII readers give up exactly at a byte that is not ASCII and otherwise agree with the loop in text and cursor |
| `MsgPackReader.StringIsRead` | frontend/public/xianyu_js_version_2.js:134-164 | well-formed text of any length is read back from any place |
| `MsgPackReader.MarkIsLostExactly` | frontend/public/xianyu_js_version_2.js:137-138 | the text is the one written unless it is long and starts with a byte order mark, and then only the mark is lost |
| `MsgPackKeys.CacheIsTransparent` | frontend/public/xianyu_js_version_2.js:41-75 | a self-contained key is found as it is decoded, whatever key left the entry in its slot |
| `MsgPackKeys.TransparentExactly` | frontend/public/xianyu_js_version_2.js:41-75 | the cache is transparent for a key if and only if its last character does not reach over its end |
| `MsgPackKeys.CutKeyIsNotTransparent` | frontend/public/xianyu_js_version_2.js:41-75 | a concrete key that is read in two ways |
| `MsgPackDecoder.Decoder.Compare` | frontend/public/xianyu_js_version_2.js:46-64 | the word-wise comparison hits exactly when the entry holds this key, and throws only for words past the end |
| `MsgPackDecoder.Decoder.CachedKey` | frontend/public/xianyu_js_version_2.js:41-75 | for every content of the 4096 slots a readable self-contained key is the direct decode, cursor included |
| `MsgPackDecoder.Decoder.Sg` | frontend/public/xianyu_js_version_2.js:31-86 | keys of all kinds agree with the specification function |
| `MsgPackDecoder.Decoder.A5` | frontend/public/xianyu_js_version_2.js:324-508 | the recursive decoder with its cache computes the specification function at every position; `MsgPackRoundTrip` and `MsgPackObjects` say what that is without the decoder's own functions |
| `MsgPackDecoder.Decoder.Fields` | frontend/public/xianyu_js_version_2.js:310-322 | fields are set one by one, a repeated key replacing its value, under the names that `MsgPackObjects.PutSets` spells out |
| `MsgPackDecoder.Decoder.DecodeMessage` | frontend/public/xianyu_js_version_2.js:101-132 | a message is decoded as specified whatever messages came before |
| `MsgPackRoundTrip.ValueIsRead` | frontend/public/xianyu_js_version_2.js:324-508 | every value built from the supported forms is read back from its encoding at any place in any buffer, cursor right behind it |
| `MsgPackRoundTrip.MessageIsRead` | frontend/public/xianyu_js_version_2.js:101-132 | a whole encoding is accepted, with any bytes behind it refused |
| `MsgPackRoundTrip.MessagesArePrefixFree` | frontend/public/xianyu_js_version_2.js:101-132 | no accepted message is a proper prefix of another |
| `MsgPackRoundTrip.KeyIsRead` | frontend/public/xianyu_js_version_2.js:31-76 | a key of up to 31 bytes is read back with and without the cache |
| `MsgPackObjects.ObjectHasItsFields` | frontend/public/xianyu_js_version_2.js:310-322 | the message for a map is decoded to an object with exactly the properties its keys set: each key its own text, but for "__proto__", which sets "__proto_"; each property has the meaning of the last field that sets it |
| `MsgPackObjects.MapMeansObject` | frontend/public/xianyu_js_version_2.js:310-342 | the same of a map at any depth of a value |
| `MsgPackObjects.PutSets` | frontend/public/xianyu_js_version_2.js:310-318 | setting fields one by one leaves every property with its last field |
| `MsgPackObjects.KeysStayApart` | frontend/public/xianyu_js_version_2.js:310-318 | two different keys never set the same property, but for the one name that gives way |
| `MsgPackObjects.ArrayMeansItems` | frontend/public/xianyu_js_version_2.js:324-508 | an array at any depth means its items, all of them and in order |
| `MsgPackObjects.NamesAreSpelled` | frontend/public/xianyu_js_version_2.js:78-86 | numbers are named by their decimal spelling, sign included, constants by their words, and arrays and maps have no name |
| `MsgPackObjects.NumberKeyIsRead` | frontend/public/xianyu_js_version_2.js:31-40 | a number written as a key in any form is read as its decimal spelling |
| `MsgPackObjects.TwoFields` | frontend/public/xianyu_js_version_2.js:310-318 | the message for {"a": 1, "b": 2} is decoded to these two fields |
| `BrowserPool.StepKeepsInv` | internal/browser/lifecycle_pool.go:293-607 | every section of every operation keeps counts, leases, flights and shutdown state consistent |
| `BrowserPool.LeasesAreCounted` | internal/browser/lifecycle_pool.go:411-477 | a pooled entry's count is its leases plus one while its first lease is unclaimed |
| `BrowserPool.NeverClosedWhileLeased` | internal/browser/lifecycle_pool.go:543-607 | no entry is closed while an operation holds a lease on it |
| `BrowserPool.InsertTakesNoLivePlace` | internal/browser/lifecycle_pool.go:423-434 | one creation per key at a time, never over a working browser |
| `BrowserPool.ClosedForGood` | internal/browser/lifecycle_pool.go:293-356 | after a close the pool stays empty, nothing runs and nothing is created |
| `BrowserPool.ClosingWindsDown` | internal/browser/lifecycle.go:372-400 | while the manager is closing operations only end, and once none is left the pool only shrinks |
| `BrowserPool.AtMostTwoAttempts` | internal/browser/lifecycle_pool.go:378-403 | in every run a page breaks at most twice under one operation, and after the second time the operation is over |
| `BrowserPool.Manager.CloseContext` | internal/browser/lifecycle_pool.go:293-356 | returns without error only with no operation left and the pool empty; after a timeout it goes on refusing operations |
| `BrowserPool.DisplacedIsNeverClosed` | internal/browser/lifecycle_pool.go:526-529 | an entry that lost its place is never closed |
| `BrowserPool.InsertDisplaces` | internal/browser/lifecycle_pool.go:526-529 | inserting over an entry puts it in that situation |
| `BrowserPool.LeftOpenExactly` | internal/browser/lifecycle_pool.go:423-434 | in every reachable state an entry is neither pooled nor closed if and only if an insert of the run hit its key while it was pooled; it had lost its connection by then |
| `BrowserPool.LeavesBrowserOpen` | internal/browser/lifecycle_pool.go:526-529 | a concrete run, for every pool size, after which a browser stays open for good |
| `BrowserPool.OthersStayWithinContract` | internal/browser/lifecycle_pool.go:293-356 | any steps of others but a close keep what CloseContext relies on |
| `BrowserPool.Manager.BeginOperation` | internal/browser/lifecycle.go:372-388 | registered exactly when neither closing nor closed |
| `BrowserPool.Manager.EndOperation` | internal/browser/lifecycle.go:391-400 | one registration less, never below zero |
| `BrowserPool.Manager.ClaimPooled` | internal/browser/lifecycle_pool.go:412-420 | claims a connected pooled entry, taking over its first lease if that is free |
| `BrowserPool.Manager.ClaimCreated` | internal/browser/lifecycle_pool.go:443-452 | claims the created entry only while it is current |
| `BrowserPool.Manager.ReleaseEntry` | internal/browser/lifecycle_pool.go:466-477 | only a current entry gives back a lease |
| `BrowserPool.Manager.InsertEntry` | internal/browser/lifecycle_pool.go:517-530 | the new entry takes the place under its key, whatever was there, connected and with its first lease counted |
| `BrowserPool.Manager.Evict` | internal/browser/lifecycle_pool.go:543-556 | an entry in use stays, an idle one is removed and closed |
| `BrowserPool.Manager.EvictIfNeeded` | internal/browser/lifecycle_pool.go:559-586 | a full pool loses its least recently used idle entry, a pool with room nothing |
| `BrowserPool.Manager.CleanupIdle` | internal/browser/lifecycle_pool.go:589-607 | removes exactly the idle entries past their time |
| `BrowserPool.Manager.Drain` | internal/browser/lifecycle_pool.go:333-346 | empties the pool and closes all it held |
| `AccountManager.OneLiveInstance` | internal/account/manager.go:107-368 | a running instance is in the table and no account has two |
| `AccountManager.StartMakesItRun` | internal/account/manager.go:107-172 | a start leaves the account running if and only if no fence is up and nobody is stopping it, also after its instance has ended by itself; an instance that is being stopped is not replaced |
| `AccountManager.StopAllFindsTableEmpty` | internal/account/manager.go:340-368 | a StopAllContext that overlaps no other and returns without error has found the table empty |
| `AccountManager.OverlappingStopAllMissesInstance` | internal/account/manager.go:340-368 | a concrete overlapping run that misses an instance |
| `AccountManager.StopAllMissesExactly` | internal/account/manager.go:340-368 | a StopAllContext that returns without error, whatever overlaps it, leaves an instance in the table if and only if another call took the fence down in between and that instance was started after it |
| `AccountManager.OthersStayWithinContract` | internal/account/manager.go:107-368 | any steps of others keep what the methods rely on |
| `AccountManager.Manager.Start` | internal/account/manager.go:107-172 | success means that the account has a running instance that nobody stops, the old one if it runs and a new one otherwise; it is refused if and only if a fence is up or the instance is being stopped |
| `AccountManager.Manager.BeginStopping` | internal/account/manager.go:175-184 | the fence is up afterwards and was put up by this call exactly when told so |
| `AccountManager.Manager.EndStopping` | internal/account/manager.go:187-191 | takes the fence of this account down and nothing else |
| `AccountManager.Manager.StopContext` | internal/account/manager.go:202-235 | without an error the instance it found has ended and left the table; it fails exactly when it gives up or the instance does not end, and the instance stays marked |
| `AccountManager.Manager.Restart` | internal/account/manager.go:297-327 | success means the old instance has ended and the account has a running one; it fails only when canceled, for an account that cannot be read, after a wait in vain, or when the start is refused |
| `AccountManager.Manager.StopAllContext` | internal/account/manager.go:340-368 | without an error every instance that existed when it began has ended; when no other call overlaps it, the table is empty and the fence lifted, and after an error the fence stays; who waits patiently gets an error only while an instance does not end |
| `DataKey.AllKeysAgree` | cmd/server/main.go:649-742 | all keys returned by racing processes are equal and equal the file's content when no sync or close fails |
| `DataKey.KeysAgreeExactly` | cmd/server/main.go:649-742 | with any faults the file holds every returned key in all states of a run if and only if no file is removed while somebody has returned a key; then all returned keys are equal |
| `DataKey.OnlySyncFaultsRemoveLate` | cmd/server/main.go:684-699 | only a failed sync or close removes a file that late |
| `DataKey.LateRemovalSplitsKeys` | cmd/server/main.go:690-699 | after such a removal the next process returns any key of its own |
| `DataKey.FailedSyncSplitsKeys` | cmd/server/main.go:690-694 | a concrete run with two keys |
| `DataKey.OthersStayWithinContract` | cmd/server/main.go:649-742 | any steps of others without a failed sync or close keep what the methods rely on |
| `DataKey.WaitsTwentyReadings` | cmd/server/main.go:722-742 | a waiting process takes the first key it sees and gives up exactly with its twentieth reading in vain |
| `DataKey.Host.WaitForDataKey` | cmd/server/main.go:722-742 | within twenty readings returns the key in the file or fails; without a fault of its own it returns a key that is there and gives up only while there is none |
| `DataKey.Host.LoadOrCreateDataKey` | cmd/server/main.go:649-701 | returns the key in the file and never replaces one that is there; after its own failed sync or close it returns nothing, and says whether the file it removed was already in use; without a fault of its own it returns a key unless the file holds none |
| `Credential.NoUpdateIsLost` | internal/automation/action_executor.go:416-498 | in every interleaving, for any cookies and answers, each committed write of each path replaces exactly the credential its request started from, which is the one written last, and stores the new cookie and snapshot its answer brought |
| `Credential.FingerprintTellsApart` | internal/automation/action_executor.go:634-638 | the text of a fingerprint determines the credential, whatever the cookie holds, when the metadata is JSON |
| `Credential.JsonCodecIsGood` | internal/xianyu/cookierefresh/cookies.go:618-647 | metadata written as JSON with its escapes meets what the theorem asks of the codec |
| `Credential.JoinedTellsApart` | internal/automation/action_executor.go:634-638 | the text of a fingerprint determines the credential when the cookie holds no NUL |
| `Credential.NulHidesBorder` | internal/automation/action_executor.go:634-638 | two texts with a NUL on both sides of the border that share a fingerprint text, so one of the two conditions is needed |
| `Credential.Store.PersistShipment` | internal/automation/action_executor.go:444-498 | writes if and only if the answer brings something, the database works and the fingerprint is the one the request read; then the new cookie and snapshot, over the credential that was read |
| `Credential.Store.PersistOrderDetail` | internal/adapter/adapter_events.go:402-440 | the same for order details |
| `Credential.Store.PersistBatch` | internal/adapter/item_batch_publish.go:167-214 | the same for batch publishing, for the same owner only |
| `AmountFilter.SameAmountsEverywhere` | internal/adapter/analytics_repository.go:282-293 | for every text the SQLite conditions hold if and only if the regular expression of the other databases matches |
| `AmountFilter.RegexMeans` | internal/adapter/analytics_repository.go:287-289 | the expression matches digits with at most one dot between them |
| `AmountFilter.GlobMeans` | internal/adapter/analytics_repository.go:291-291 | so do the four conditions |
| `Money.ReadersAgreeExactly` | internal/automation/action_executor.go:375-413 | whenever the price reader accepts any text, the batch reader agrees if and only if the text does not start with a minus sign |
| `Money.MinusZeroDisagrees` | internal/adapter/item_batch_publish.go:352-354 | the text "-0.5" |
| `Money.AcceptedPriceIsExactly` | internal/automation/action_executor.go:408-412 | an accepted price is one hundred times the written number if and only if its whole part is at most a million |
| `Money.HugePriceIsAccepted` | internal/automation/action_executor.go:408-412 | a number that is accepted as 84 cents |
| `Money.SmallPricesAreRead` | internal/automation/action_executor.go:375-413 | every price up to a million with at most two decimals is accepted with its value |
| `Money.ParseBatchMoneyCents` | internal/adapter/item_batch_publish.go:343-384 | prefixes, sign, parts and the padding loop compute the specification function |
| `Money.SignsInFront` | internal/adapter/item_batch_publish.go:343-355 | a currency sign in front changes nothing and a minus sign turns the amount round |
| `Money.WrittenIsRead` | internal/automation/action_executor.go:375-405 | every number of 63 bits is read back from its decimal text, with and without a sign |
| `RunTable.ClaimFencesOldAttempts` | internal/db/automation.go:681-696 | after a claim, every statement that carries an older attempt is refused; note and retry time are cleared, cursor, count and proof kept |
| `RunTable.LeaseProtects` | internal/db/automation.go:590-696 | a row claimed, renewed or started with a lease is not claimed while it lasts, also after an abort, and can be claimed afterwards without an open action |
| `RunTable.StatementsChain` | internal/db/automation.go:590-611 | an opened checkpoint can be advanced or aborted but not opened again; then the next position or the same one can |
| `RunTable.ReviewWaitsForOperator` | internal/db/automation_recovery.go:108-153 | nothing claims, starts or closes a row under review; a decision to go on or to retry makes it claimable at once, behind the position or at it, with its proof |
| `RunTable.PolicyByResolution` | internal/db/automation_recovery.go:172-225 | when each of the three decisions is allowed |
| `RunTable.PostponeHoldsBack` | internal/db/automation.go:667-678 | a postponed row is held back until the given time and no longer, whichever of its two times holds it |
| `RunTable.RetryWaitsAMinute` | internal/db/automation.go:681-718 | a run closed as failed can be claimed again from a minute later on, if and only if its error allows it |
| `RunTable.FinishKeepsProofExactlyForRetry` | internal/db/automation.go:699-718 | a failed run keeps its proof if and only if its result may be tried again |
| `RunTable.FinishLeavesProofBehindExactly` | internal/db/automation.go:681-718 | a failed run is claimed again if and only if its result may be tried again and fewer than three attempts were made; a proof stays behind for good if and only if it may and three were made |
| `RunTable.LastAttemptKeepsProof` | internal/db/automation.go:699-718 | a concrete row whose proof stays behind |
| `RunTable.Table.TryStartRun` | internal/db/automation.go:517-559 | one row per rule and trigger key: a second call changes the stored row only by reclaiming it when its lease or retry is due, and reports a start only then |
| `RunTable.Table.ClaimRecoveryRun` | internal/db/automation.go:681-696 | the row is claimed exactly when it is due and no action is open; the claim raises the attempt and clears note and retry time |
| `RunTable.Table.StartRunAction` | internal/db/automation.go:590-600 | compare-and-set on running, attempt, cursor and not started, with a new lease; a lost reply leaves the mark |
| `RunTable.Table.AbortRunAction` | internal/db/automation.go:603-611 | clears the started mark of the owner's cursor and nothing else |
| `RunTable.Table.AdvanceRunAction` | internal/db/automation_delivery_proof.go:44-73 | cursor, mark, sent count and proof change together or not at all |
| `RunTable.Table.RenewRunLease` | internal/db/automation.go:614-622 | only the owner moves the lease, and only the lease |
| `RunTable.Table.QuarantineRun` | internal/db/automation.go:625-634 | the attempt's running or failed row goes under review, mark and proof kept |
| `RunTable.Table.QuarantineRunResultWithProof` | internal/db/automation.go:637-664 | as above, with the given count, and the given proof if there is one |
| `RunTable.Table.PostponeRecoveryRun` | internal/db/automation.go:667-678 | a row without an open action gets a later lease or retry time, nothing else |
| `RunTable.Table.FinishRun` | internal/db/automation.go:699-718 | only the owner closes; the proof is dropped unless the run will be retried |

## Left out

- RunCount.SentCountIsSum: asks that workers close a run with the row's cursor and that the operator's decisions respect what the hand-over to the review did to the count; both conditions are about the statements before, and a run with a stale close is shown. It says nothing of rows under review or canceled.
- RunDelivery.StepKeepsHealthy: asks that an unsure action is handed to the review with the row's cursor, and that a retried row has its proof; without the operator both always hold, and with one the second holds exactly when no close for good dropped a proof since the decision before.
- RunDelivery.ConfirmAfterAllCards: for the proof, unsure actions are handed over with the row's cursor and no retried row was closed for good with a proof; that no unknown card is skipped is proved without them. What a skipped position leaves is the proof the review had stored, of which nothing more is said.
- ActionPlanner.ConfirmationsFollowTheRulesCards: the same two conditions, for the proof only.
- AccountManager.Manager.StopAllContext: an empty table is promised only when no other call overlaps; when one does, the exact condition is a lemma about the steps.
- DataKey.Host.LoadOrCreateDataKey: the other processes' syncs and closes succeed; the step model covers their failure. A failed write leaves nothing in the file that can be read as a key, and removing the file succeeds.
- TemplateDelivery.MisreportedTemplate: whether the line can be taken is up to the store, so the report is stated for the case that it cannot.
- A card key without a binding loses the lines taken before it, but reading a rule refuses an action whose keys and bindings differ (internal/db/automation_template_helpers.go:97-111), so this concerns only an action that was not read that way.
- Credential.NoUpdateIsLost: the metadata is empty or JSON text, in which NUL is escaped, as the writers of metadata see to (internal/xianyu/cookierefresh/cookies.go:618-647, internal/db/cookies.go:342-360); a raw NUL in stored metadata is not considered.
- The data key is written to its file in one atomic step, so a reader sees no part of it; before that step the file is there without a key.
- RunCoordinator.World.Others: has no effect of its own; callers use its contract only, and a lemma shows that every run of others meets it. The same holds for the methods of that name in the other modules, except for card stock, where what others add and take is accounted for by definition.
- The operator's decision is one step; the code reads the row, checks the policy and then updates it, so a second decision on the same row in between is not modelled.
- AccountManager.Manager.StopContext: waiting for an instance is one wait that may give up, so waiting forever is not modelled.
- A template whose remote card was fetched and whose next key then finds its stock empty is denied as the code denies it; what the service does with the same unit asked again is not modelled.
- CardSending.SendApiCard: takes the service's own word on whether a request was dispatched.
- ActionExecutor.Execute: whether an order matches a card action and its card is usable are inputs.
- The plan of a run is taken as frozen and shared by its workers; a rule edited between two deliveries of one event can change the plan of a reclaimed run.
- Two workers that hold the same attempt are allowed everywhere; which process a lease belongs to is not stored and not modelled.
- Statements that consume or restore stock either take effect with a success or fail without effect, and the number of affected rows can always be read.
- Recovery of reviewed runs that were surely not sent, which rests on the wording of old error messages.
- Deferred tasks as rows of their own (claim version, retry, dead letters); the run model has the step that stores one.
- Order facts, event intake, notifications, logging, pausing of accounts, AI pricing.
- The text of messages: which card keys a message mentions and how it is rendered are parameters.
- Settings that give one field twice, or in another spelling of its name.
- MessagePack floats, binary data, extensions, str 8, str 32, array 16 and array 32: they need helpers that are not in the file; the specification function says nothing about them. base64 and the JSON output are not modelled.
- The platform's text decoder is a parameter assumed to be right about well-formed UTF-8.
- Object keys are a map: the order in which JavaScript lists the fields is not modelled.
- Playwright itself, page creation, and operations that start a browser outside a registered operation.
- The size of the browser pool: the check and the insert are separate sections, so no bound is claimed.
- SQL text beyond the conditions and assignments of the statements named above; encryption; backups.
- Regular expressions are matched as defined, without the end-of-line rules of particular databases; removing currency signs and thousands separators happens before.
- The hash of the credential fingerprint is taken to have no collisions.
