# Eeveetuber, modelled in Dafny

Eeveetuber is a realtime agent runtime: it listens to a microphone, streams a dialogue model, speaks, and
moves an avatar. This project models its deterministic cores and concurrent protocols and proves what they
promise, for every input, every run and every interleaving.

| part | files | form |
|---|---|---|
| Dialogue pipeline | `Pipeline*.dfy`, `Assembler*.dfy`, `Text.dfy` | transition system over scripted providers, refined against a sequential loop; the assembler is a class |
| Avatar presentation scheduler | `Presentation.dfy`, `Scheduler*.dfy` | class proved against functions of its state; theorems over all runs of those functions |
| Session, cancellation, mailbox | `Session.dfy`, `Cancellation.dfy`, `Mailbox.dfy`, `DeliveryOrder.dfy` | classes, and a transition system whose step boundaries are the `await` points |
| Voice path | `Vad*.dfy`, `Resampler.dfy`, `VoiceEpochs.dfy` | classes for detector and worklet, transition system for the recognition lane |
| Streaming text | `Sse*.dfy`, `Utf8.dfy` | class and functions |
| Bounded selection | `Context*.dfy`, `Tokens.dfy`, `Ranking.dfy`, `History*.dfy` | methods with loops proved against functions |
| Memory revisions | `Memory*.dfy` | class whose methods are transactions |
| Binary packets | `Octets.dfy`, `AudioFrames.dfy`, `VoiceFrames.dfy` | functions |

`dafny verify dfyconfig.toml` checks everything.

Where the code and its documentation or its callers' expectations part ways, the model follows the code:

- Whether a server-sent event stream decodes can depend on chunking (`SseProofs.SuccessDependsOnChunking`;
  exactly when is `SseProofs.ChunkingExactly`); what it decodes to cannot.
- An end of speech can lack its epoch (`VoiceEpochs.CloseCanOrphan`), exactly when the input is closed between
  a start and the end reported for the same frame (`VoiceEpochs.EndsFindTheirEpoch`).
- The history search can miss a prefix of one character (`HistoryProofs.OneCharacterMissed`); the exact
  lengths for which it does are `HistoryProofs.LongestPrefixKept`.
- A message one character over the limit is kept whole and marked as cut (`HistoryProofs.WholeTextMarkedCut`).
- An audio frame can be valid and still not encodable (`AudioFrames.ValidButNotEncodable`), exactly when its
  media type is too long (`AudioFrames.EncodeFailsExactly`).
- A memory candidate may name another namespace than the memory it revises, so generations need not rise
  along a chain (`MemoryProofs.GenerationsCanStall`); when they do is `MemoryProofs.GenerationRisesExactly`.
- A candidate may enter as committed already, and then has no revision to answer with
  (`MemoryProofs.ClaimedCommitHasNoRevision`); `MemoryProofs.ReapplyingChangesNothing` states that exactly such
  candidates have none.

Assumptions: the scheduler's clock does not run backwards (only for the two timing theorems and the theorems
of `SchedulerDecisions` and `SchedulerDue` that read limits off the log); its neutral factory honours its
contract (layer, generation, one identifier per layer and generation, resources fixed per layer), and
submitted cues do not use neutral identifiers; frames reach a voice input one call at a time; the recognition
sink does not raise.

## Model

| member | source | states |
|---|---|---|
| `PipelineTheorems.Refinement` | src/eeveetuber/dialogue/pipeline.py:132-168 | Under every interleaving of producer, dispatcher, synthesis tasks, publisher and the outside world, what is visible is a prefix of the sequential loop; a run that stopped while live showed all of it and ended as the loop ends, so a stage failure surfaces only at its place. |
| `PipelineTheorems.UndisturbedRunsMatch` | src/eeveetuber/dialogue/pipeline.py:99-168 | Left alone and run, in any order, until no task can move, the pipeline has stopped, has shown exactly the sequential output, and ends with the same outcome. |
| `PipelineTheorems.NeverStuck` | src/eeveetuber/dialogue/pipeline.py:224-242 | Deadlock freedom: every reachable pipeline that has not stopped has a step of its own to take. |
| `PipelineTheorems.RunsAreBounded` | src/eeveetuber/dialogue/pipeline.py:99-168 | No schedule is longer than the work the provider scripts hold, so every run stops. |
| `PipelineTheorems.Bounds` | src/eeveetuber/dialogue/pipeline.py:106-112 | At most `max_concurrent_synthesis` jobs hold slots, and the segment, output and audio queues stay within capacity. |
| `PipelineTheorems.SilentOnceSuperseded` | src/eeveetuber/dialogue/pipeline.py:293-301 | Once a run is superseded or its token cancelled, nothing more becomes visible, whatever runs on. |
| `PipelineTheorems.ReachableInv` | src/eeveetuber/dialogue/pipeline.py:132-291 | Every reachable state satisfies the pipeline invariant for the production that happened. |
| `PipelineSteps.StepKeeps` | src/eeveetuber/dialogue/pipeline.py:170-291 | Every step of every task keeps the invariant, including a producer that is cut short by a cancellation. |
| `PipelineProgress.SomeTaskMoves` | src/eeveetuber/dialogue/pipeline.py:132-291 | In any state that satisfies the invariant, whoever the publisher waits for can move. |
| `PipelineProgress.StepWorks` | src/eeveetuber/dialogue/pipeline.py:132-291 | Every step, whoever takes it, lowers the remaining work. |
| `PipelineInvariant.StreamIsProduction` | src/eeveetuber/dialogue/pipeline.py:170-213 | What the producer puts is segments and then one terminal item, the plan or a failure. |
| `PipelineInvariant.SpeechIsNarration` | src/eeveetuber/dialogue/pipeline.py:255-289 | What a synthesis task puts is chunks and then one terminal item; `PipelineSpeech.SpeechOrdered` says which chunks. |
| `PipelineText.FinishedDialogueSaysTheText` | src/eeveetuber/dialogue/pipeline.py:192-207 | A finished dialogue announced exactly the segments of its plan, numbered from zero, and they say exactly the text of the model, whitespace aside. |
| `PipelineText.StreamPlan` | src/eeveetuber/dialogue/pipeline.py:179-207 | The plan at the end of a production lists exactly the segments produced. |
| `PipelineSpeech.VisibleIsWellSpoken` | src/eeveetuber/dialogue/pipeline.py:255-291 | Under every schedule, read off what is visible: the audio after the announcement of a segment carries its identity and number and the indices 0, 1, 2 and so on, each the chunk the synthesizer yielded there; after a final chunk comes only the next announcement or the plan, and neither comes before it. |
| `PipelineSpeech.EverySegmentIsSpoken` | src/eeveetuber/dialogue/pipeline.py:147-165 | In a finished run every announced segment has audio, its last chunk is final, and the plan comes last. |
| `PipelineSpeech.AnnouncedInOrder` | src/eeveetuber/dialogue/pipeline.py:147-165 | Under every schedule segments are announced as 0, 1, 2 and so on. |
| `PipelineSpeech.SpeechOrdered` | src/eeveetuber/dialogue/pipeline.py:255-283 | What a synthesis task puts is chunk after chunk of its script, each in its place and none after a final one; it ends cleanly only after all of them, the last one final. |
| `PipelineSpeech.CleanExactly` | src/eeveetuber/dialogue/pipeline.py:255-283 | A synthesis ends cleanly exactly when its provider yields at least one chunk, numbered from zero, with the identity of the segment, the last one and no other final, and then stops without an error. |
| `PipelineSpeech.FinishesExactly` | src/eeveetuber/dialogue/pipeline.py:179-207 | Left alone and run until no task can move, a dialogue finishes exactly when the model stream is proper and every segment made of it is properly spoken; its plan then carries the completion the model gave, or the default. |
| `PipelineSpeech.FailureNamesItsCause` | src/eeveetuber/dialogue/pipeline.py:255-289 | Under every schedule, a run that failed while live names the first fault: of the segment it was speaking when it stopped, after the chunks it had shown, or of the model where the next segment was due. |
| `PipelineSpeech.FailureIsNamed` | src/eeveetuber/dialogue/pipeline.py:262-289 | A synthesis that fails names the first chunk out of place, the provider error, the missing audio or the missing final chunk. |
| `PipelineSpeech.ModelIsBlamed` | src/eeveetuber/dialogue/pipeline.py:180-213 | A production that fails names the first unsupported event, the second completion, or the error of the model stream. |
| `Assembler.SegmentsSayTheText` | src/eeveetuber/dialogue/assembler.py:26-67 | However the text is cut into deltas, the segments joined are the text up to whitespace, numbered 0..n-1. |
| `Assembler.NextCutKeepsText` | src/eeveetuber/dialogue/assembler.py:32-49 | One round of the loop shrinks the buffer and loses nothing but whitespace. |
| `Assembler.DrainKeeps` | src/eeveetuber/dialogue/assembler.py:32-49 | The loop ends with no boundary and fewer than the maximal characters left, and preserves the text. |
| `Assembler.PushKeeps` | src/eeveetuber/dialogue/assembler.py:26-51 | After each push the buffer has no boundary and is below the bound; no new segment exceeds the bound plus the delta. |
| `Assembler.FinishKeeps` | src/eeveetuber/dialogue/assembler.py:53-58 | Finishing emits the stripped rest and loses no text. |
| `AssemblerPattern.BoundaryIsSearch` | src/eeveetuber/dialogue/assembler.py:9-9 | The boundary the assembler cuts at, and where it goes on, are those of a leftmost backtracking search for the regular expression of the source. |
| `AssemblerPattern.PatternMatches` | src/eeveetuber/dialogue/assembler.py:9-9 | At every position the expression matches exactly where the assembler sees a boundary, and the match preferred by backtracking ends where the assembler goes on. |
| `Assembler.IncrementalUtteranceAssembler.Push` | src/eeveetuber/dialogue/assembler.py:26-51 | The loop over fields computes the specified assembly; segments only grow. |
| `Assembler.IncrementalUtteranceAssembler.Round` | src/eeveetuber/dialogue/assembler.py:33-48 | One turn of the loop, boundary or safe cut, with its effect on buffer and segments. |
| `Assembler.IncrementalUtteranceAssembler.Finish` | src/eeveetuber/dialogue/assembler.py:53-58 | At most one more segment; the buffer is emptied and the content preserved. |
| `Assembler.IncrementalUtteranceAssembler.MakeSegment` | src/eeveetuber/dialogue/assembler.py:60-67 | The new segment carries the next number and is appended. |
| `SchedulerTheorems.LogReplaysToLeases` | src/eeveetuber/avatar/scheduler.py:146-305 | In every run, folding all returned events over an empty stage never starts a cue twice nor stops an absent one, and gives exactly the active leases; sequence numbers strictly increase. |
| `SchedulerTheorems.ArbitrationHolds` | src/eeveetuber/avatar/scheduler.py:343-415 | In every reachable state: one lease per layer, exact layer index, disjoint resources, current generation only, none while disconnected; a lease stopped in favour of another cue made way, at that moment, for a cue of at least its priority. |
| `SchedulerTheorems.NeutralRecovery` | src/eeveetuber/avatar/scheduler.py:466-484 | While connected, a layer that has held a cue holds a live lease, or is queued for neutral and its neutral cue is blocked by a resource of a live lease. |
| `SchedulerTiming.RateLimitsHold` | src/eeveetuber/avatar/scheduler.py:502-526 | With a clock that never runs backwards, no window of the whole run holds more than `max_starts` limited starts, globally and per limited layer. |
| `SchedulerTiming.CooldownsHold` | src/eeveetuber/avatar/scheduler.py:374-388 | Of two limited starts with the same key, the later comes at least the earlier one's cooldown after it, across generations and reconnects. |
| `SchedulerTiming.ApplyTiming` | src/eeveetuber/avatar/scheduler.py:146-305 | Every public operation keeps the bookkeeping of windows and cooldowns in step with the log. |
| `SchedulerTiming.SpacedCount` | src/eeveetuber/avatar/scheduler.py:523-526 | Starts spaced by the window never crowd any window. |
| `SchedulerDecisions.SubmitDecides` | src/eeveetuber/avatar/scheduler.py:146-186 | In every run a submitted cue without audio binding starts exactly when it is no duplicate, is timely and of the current generation, no unexpired lease in its way outranks it, and neither the cooldowns nor the windows read off the log forbid it. |
| `SchedulerDecisions.AttemptDecides` | src/eeveetuber/avatar/scheduler.py:343-415 | An attempt succeeds if and only if the cue may start; then the cue is on stage from now until its lease ends. |
| `SchedulerDecisions.LimitsAreLogged` | src/eeveetuber/avatar/scheduler.py:502-526 | The pruned deques admit a start exactly when the log shows room in the window that ends now. |
| `SchedulerDecisions.CoolingIsLogged` | src/eeveetuber/avatar/scheduler.py:374-388 | The cooldown map rejects exactly when some logged start with the key has not cooled down. |
| `SchedulerDecisions.ExpireRemoves` | src/eeveetuber/avatar/scheduler.py:443-464 | Expiry removes exactly the leases whose time is up. |
| `SchedulerDecisions.SubmitPreempts` | src/eeveetuber/avatar/scheduler.py:390-402 | In every run, when a submitted cue starts, every unexpired lease that shares its layer or a resource was stopped in that call as preempted, replaced by that cue. |
| `SchedulerDecisions.AttemptPreempts` | src/eeveetuber/avatar/scheduler.py:390-402 | The same of any attempt that succeeds, so also of due cues. |
| `SchedulerDecisions.TickAttemptsWhatIsDue` | src/eeveetuber/avatar/scheduler.py:210-218 | In every run a tick leaves waiting exactly the cues that are neither late nor due. |
| `SchedulerDue.TickAttempts` | src/eeveetuber/avatar/scheduler.py:417-441 | In every run a tick has one result for each timely due cue and for no other, by due time, descending priority and sequence; the log gains the starts of exactly those that succeeded, in order, then neutral cues; the first succeeds exactly when its cue may start once expired leases are gone. |
| `SchedulerDue.MarkerAttempts` | src/eeveetuber/avatar/scheduler.py:188-208 | The same of a marker, for the cues as it binds them: due its time plus their offset. |
| `SchedulerDue.StartNextAttempts` | src/eeveetuber/avatar/scheduler.py:433-440 | Every due cue, at its turn, starts exactly when it may start then. |
| `SchedulerDue.SubmitStarts` | src/eeveetuber/avatar/scheduler.py:146-186 | In every run a submission logs the start of its own cue exactly when it answers so, then neutral cues, and no other start. |
| `SchedulerDue.SubmitBoundDecides` | src/eeveetuber/avatar/scheduler.py:164-182 | In every run a cue bound to audio waits exactly when it is not turned away and its moment is unknown or to come, and starts exactly when its moment has come and it may start. |
| `SchedulerDue.SubmitAnswers` | src/eeveetuber/avatar/scheduler.py:149-182 | In every run, for each rejection, the condition under which a submission is answered with it. |
| `SchedulerDue.AttemptAnswers` | src/eeveetuber/avatar/scheduler.py:343-388 | For each rejection, the condition under which an attempt is answered with it. |
| `SchedulerDue.MarkerIsRemembered` | src/eeveetuber/avatar/scheduler.py:188-200 | A marker of the current generation replaces an older one of its key, stays for cues submitted later, and only the oldest others give way to the limit. |
| `SchedulerDue.ConflictsYieldInOrder` | src/eeveetuber/avatar/scheduler.py:486-500 | Conflicting leases are stopped in the order of priority, start time and identifier. |
| `SchedulerEffects.AdvanceTakesOver` | src/eeveetuber/avatar/scheduler.py:220-240 | In every run a newer generation stops every lease, forgets pending cues and markers, and leaves only its own neutral cues on stage; an older one changes nothing. |
| `SchedulerEffects.ResetClears` | src/eeveetuber/avatar/scheduler.py:262-273 | In every run a reset leaves only neutral cues on stage and nothing waiting. |
| `SchedulerEffects.ConnectionFollows` | src/eeveetuber/avatar/scheduler.py:275-305 | In every run disconnecting for one of its two reasons empties everything, and reconnecting brings back neutral cues only. |
| `SchedulerEffects.CancelRemoves` | src/eeveetuber/avatar/scheduler.py:242-260 | In every run a cancelled cue is neither waiting nor on stage afterwards, and its stop is logged with the reason given. |
| `SchedulerInvariant.ConflictsAll` | src/eeveetuber/avatar/scheduler.py:486-500 | The conflict list is exactly the active leases that share the layer or a resource, each once. |
| `SchedulerInvariant.StopEachEffect` | src/eeveetuber/avatar/scheduler.py:528-532 | Stopping a list of leases removes exactly those, reports each, and keeps index and log in order. |
| `SchedulerSteps.BeginKeeps` | src/eeveetuber/avatar/scheduler.py:390-415 | Preempting conflicts and starting a cue keeps the invariant. |
| `SchedulerSteps.AttemptKeeps` | src/eeveetuber/avatar/scheduler.py:343-415 | Whether it starts or is rejected, an attempt keeps the invariant. |
| `SchedulerSteps.RestoreKeeps` | src/eeveetuber/avatar/scheduler.py:466-484 | After neutral recovery every layer queued for neutral is blocked by a live lease. |
| `SchedulerSteps.ApplyKeeps` | src/eeveetuber/avatar/scheduler.py:146-305 | Every public operation keeps the invariant and ends recovered. |
| `SchedulerSteps.ReachableInv` | src/eeveetuber/avatar/scheduler.py:146-305 | Every reachable state satisfies the invariant. |
| `Scheduler.PresentationScheduler.constructor` | src/eeveetuber/avatar/scheduler.py:80-105 | A new scheduler is connected, empty and valid. |
| `Scheduler.PresentationScheduler.Submit` | src/eeveetuber/avatar/scheduler.py:146-186 | Expiry, admission and neutral recovery in this order; validity kept; returned events are what the log gained. |
| `Scheduler.PresentationScheduler.Admit` | src/eeveetuber/avatar/scheduler.py:149-182 | Refusal by connection, generation, deadline, duplicate or full queue; audio-bound cues wait, others are attempted. |
| `Scheduler.PresentationScheduler.NotifyAudio` | src/eeveetuber/avatar/scheduler.py:188-208 | A marker of the current generation is the specified transition, of which `SchedulerDue.MarkerAttempts` says what is attempted and started; any other changes nothing. |
| `Scheduler.PresentationScheduler.Tick` | src/eeveetuber/avatar/scheduler.py:210-218 | The specified transition, of which `SchedulerDue.TickAttempts` says what is attempted and started. |
| `Scheduler.PresentationScheduler.AdvanceGeneration` | src/eeveetuber/avatar/scheduler.py:220-240 | Going backwards is refused; going forwards stops every lease and drops pending cues and markers. |
| `Scheduler.PresentationScheduler.Cancel` | src/eeveetuber/avatar/scheduler.py:242-260 | Removes a pending cue or stops an active one. |
| `Scheduler.PresentationScheduler.ResetToNeutral` | src/eeveetuber/avatar/scheduler.py:262-273 | Stops everything and asks for a neutral cue on every layer. |
| `Scheduler.PresentationScheduler.Disconnect` | src/eeveetuber/avatar/scheduler.py:275-295 | Stops everything and forgets pending cues; a reason that is not about the adapter is refused. |
| `Scheduler.PresentationScheduler.Reconnect` | src/eeveetuber/avatar/scheduler.py:297-305 | Asks for a neutral cue on every layer. |
| `Scheduler.PresentationScheduler.AcceptsAdapterResult` | src/eeveetuber/avatar/scheduler.py:135-144 | A late result counts exactly for a cue on stage now, in the current generation. |
| `Scheduler.PresentationScheduler.AttemptStart` | src/eeveetuber/avatar/scheduler.py:343-415 | The rejections in their order, then preemption and start. |
| `Scheduler.PresentationScheduler.StartDue` | src/eeveetuber/avatar/scheduler.py:417-441 | The loop over due cues computes the specified batch, one attempt for each. |
| `Scheduler.PresentationScheduler.Expire` | src/eeveetuber/avatar/scheduler.py:443-464 | Expired leases, late pending cues and past cooldowns are removed. |
| `Scheduler.PresentationScheduler.RestoreNeutrals` | src/eeveetuber/avatar/scheduler.py:466-484 | One layer after the other receives its neutral cue where nothing conflicts. |
| `Scheduler.PresentationScheduler.WithinRateLimits` | src/eeveetuber/avatar/scheduler.py:502-514 | Prunes the windows it looks at and answers whether there is room. |
| `Scheduler.PresentationScheduler.RemoveActive` | src/eeveetuber/avatar/scheduler.py:528-532 | Removes a lease from both indexes. |
| `Mailbox.PutAllKeepsBest` | src/eeveetuber/runtime/mailbox.py:270-329 | A get-free run of puts keeps exactly the first `capacity` values of the stable sort: descending, a permutation of what was put, each priority in arrival order. |
| `Mailbox.PutEach` | src/eeveetuber/runtime/mailbox.py:145-155 | The same of the class: a new mailbox that drops its lowest, after any sequence of puts, holds those items, and its counters add up. |
| `Mailbox.StableSortIsStable` | src/eeveetuber/runtime/mailbox.py:253-253 | The reference sort is descending, a permutation, and stable within every priority. |
| `Mailbox.PutAllBounded` | src/eeveetuber/runtime/mailbox.py:270-329 | Value by value the bounded list is the beginning of the sorted one. |
| `Mailbox.BoundedIsPrefix` | src/eeveetuber/runtime/mailbox.py:302-324 | Offering to the bounded list is offering to the unbounded one and keeping the first `capacity`. |
| `DeliveryOrder.DeliveryEntries` | src/eeveetuber/runtime/mailbox.py:235-253 | The delivery order holds exactly the stored entries, sorted by priority descending and arrival. |
| `DeliveryOrder.OrderedUnique` | src/eeveetuber/runtime/mailbox.py:235-253 | There is only one delivery order of a set of entries. |
| `DeliveryOrder.RemoveFirst` | src/eeveetuber/runtime/mailbox.py:235-243 | Removing the best entry of the unsorted store removes the head of the delivery order. |
| `DeliveryOrder.RemoveLast` | src/eeveetuber/runtime/mailbox.py:307-317 | Removing the lowest entry of the unsorted store removes the last of the delivery order. |
| `Mailbox.PriorityMailbox.constructor` | src/eeveetuber/runtime/mailbox.py:83-114 | A new mailbox is open, empty and valid. |
| `Mailbox.PriorityMailbox.Get` | src/eeveetuber/runtime/mailbox.py:229-245 | Takes the head of the delivery order; waits when empty and open, reports the end when empty and closed. |
| `Mailbox.PriorityMailbox.Close` | src/eeveetuber/runtime/mailbox.py:247-260 | Discarding returns the whole delivery order in order; otherwise nothing is lost. |
| `Mailbox.PriorityMailbox.Append` | src/eeveetuber/runtime/mailbox.py:262-268 | The new entry takes its place in delivery order; counters and space flag follow. |
| `Mailbox.PriorityMailbox.Evict` | src/eeveetuber/runtime/mailbox.py:307-317 | Removes the last of the delivery order. |
| `Mailbox.PriorityMailbox.Merge` | src/eeveetuber/runtime/mailbox.py:285-300 | Coalescing replaces a pending item in place and keeps its arrival number. |
| `Mailbox.PriorityMailbox.OfferNow` | src/eeveetuber/runtime/mailbox.py:302-329 | Accept, displace the lowest, reject or wait: exactly what the bounded sorted list does, with the new arrival number and every counter. |
| `Mailbox.PriorityMailbox.TryPut` | src/eeveetuber/runtime/mailbox.py:270-329 | Closed, commit check, coalescing and capacity in this order, with the new arrival number and every counter; validity (conservation and the space flag) kept. |
| `Mailbox.PriorityMailbox.FindMatch` | src/eeveetuber/runtime/mailbox.py:331-339 | The oldest entry with the same key. |
| `Cancellation.CancellationSource.constructor` | src/eeveetuber/runtime/cancellation.py:92-96 | The first generation is current and uncancelled. |
| `Cancellation.CancellationSource.LiveTokenIsCurrent` | src/eeveetuber/runtime/cancellation.py:60-68 | However old a token is, if it is not cancelled it is of the current generation of an open source. |
| `Cancellation.CancellationSource.Advance` | src/eeveetuber/runtime/cancellation.py:112-123 | Cancels the old generation before the next is current; refused with a blank reason or when closed. |
| `Cancellation.CancellationSource.CancelCurrent` | src/eeveetuber/runtime/cancellation.py:125-129 | Cancels the current generation; tells whether that was news. |
| `Cancellation.CancellationSource.Close` | src/eeveetuber/runtime/cancellation.py:131-137 | Cancels and closes. |
| `Cancellation.CancellationSource.Accepts` | src/eeveetuber/runtime/cancellation.py:139-145 | True exactly for the current uncancelled generation. |
| `Cancellation.CancellationSource.CurrentToken` | src/eeveetuber/runtime/cancellation.py:108-110 | Hands out the current generation and its state. |
| `Cancellation.CancellationState.Cancel` | src/eeveetuber/runtime/cancellation.py:50-56 | The first reason stays. |
| `Session.AdmissionsAreGated` | src/eeveetuber/runtime/session.py:259-344 | However long publishers and waiting submitters are delayed, an event enters a mailbox only while its generation is current and uncancelled, so admitted generations never decrease; capacities hold, and every sequence number ever stamped is in exactly one of waiting, admitted, withdrawn and refused. |
| `Session.RealtimeStreamAdvances` | src/eeveetuber/api/app.py:344-357 | With the filter of the sender, turn output is sent in non-decreasing generations despite priorities, and once a replacement turn is accepted nothing of an older turn is sent. |
| `Session.SendsAreCurrent` | src/eeveetuber/api/app.py:344-357 | What is sent during a stretch of a run is at least of the generation current at its start. |
| `Session.NextKeeps` | src/eeveetuber/runtime/session.py:250-344 | Every step keeps the invariant, and the generation never falls. |
| `Session.CommittedKeeps` | src/eeveetuber/runtime/session.py:448-468 | One pass of a waiting put, with its synchronous commit check, keeps the invariant. |
| `Session.OutboxIsConserved` | src/eeveetuber/api/app.py:344-357 | Over every run each admission is in exactly one of queued, displaced and taken out; of what was taken, exactly turn output older than the turn current at that moment was skipped, and all else was sent, in order. Whoever gave up or was refused had no live generation. |
| `Session.UndisturbedTurnIsSent` | src/eeveetuber/api/app.py:344-357 | A run that never replaces its turn sends everything it takes, in order. |
| `Session.CommitDecides` | src/eeveetuber/runtime/session.py:331-344 | A waiting call commits exactly when its generation is live and there is room, in the outbox also by displacing what is less important, in the inbox never by displacing. |
| `Session.CommitLeaves` | src/eeveetuber/runtime/session.py:331-344 | Who commits or gives up no longer waits; a result that gives up is counted as stale, unless the outbox is closed. |
| `Session.ResultsEnter` | src/eeveetuber/runtime/session.py:311-329 | A result waits for the outbox, with the next number, exactly while its generation is live; otherwise it is counted as stale. |
| `Session.SubmissionsWait` | src/eeveetuber/runtime/session.py:259-310 | A submission that may wait does so for the inbox, a foreground turn under the next generation. |
| `Session.SubmissionsEnter` | src/eeveetuber/runtime/session.py:250-291 | An immediate submission enters the inbox exactly when there is room or it outranks the least important entry. |
| `Session.CancelSilences` | src/eeveetuber/runtime/cancellation.py:125-145 | Once the turn is cancelled nothing is admitted until a foreground turn replaces it. |
| `Session.HandlerTakesForemost` | src/eeveetuber/runtime/mailbox.py:229-245 | The handler takes the most important event, the oldest of its priority. |
| `Session.SenderTakesForemost` | src/eeveetuber/runtime/mailbox.py:229-245 | So does the sender. |
| `Session.WithdrawnIsStale` | src/eeveetuber/runtime/session.py:338-342 | A result withdrawn while it waits is counted as stale, a submission is not. |
| `VadRuns.Segmentation` | src/eeveetuber/media/vad.py:115-287 | For every stream of accepted frames nothing is raised while they are handled; starts and ends pair up, and each pair is a contiguous block of the input, after and disjoint from every earlier block, a valid utterance within both limits that opened and ended where the thresholds and limits say, with as long a pre-roll as its limits and the block before allow. |
| `VadRuns.EventsAlternate` | src/eeveetuber/media/vad.py:115-134 | Starts and ends alternate, and an utterance is open after an odd number of events. |
| `VadRuns.StartsIncrease` | src/eeveetuber/media/vad.py:225-250 | Start and end carry the same identity, and start sequences strictly increase. |
| `VadRuns.Bounded` | src/eeveetuber/media/vad.py:109-113 | What is retained is the end of the input, counted exactly, and never above the byte and duration limits. |
| `VadRuns.SpeechIsNoticed` | src/eeveetuber/media/vad.py:153-179 | While idle, the latest `speech_start_frames` frames since the last utterance are not all loud, provided such stretches fit the limits. |
| `VadRuns.SilenceIsNoticed` | src/eeveetuber/media/vad.py:196-209 | While speaking, the latest `speech_end_frames` frames are not all quiet. |
| `VadRuns.ProcessKeeps` | src/eeveetuber/media/vad.py:115-123 | Every admissible frame is accepted and keeps the invariant. |
| `VadRuns.IdleKeeps` | src/eeveetuber/media/vad.py:153-179 | A frame heard while idle keeps the invariant, whether speech starts, starts and hits a limit at once, or not. |
| `VadRuns.SpeakingKeeps` | src/eeveetuber/media/vad.py:181-209 | A frame heard while speaking keeps the invariant, whether it extends, ends or overflows the utterance. |
| `VadProofs.TrimKeeps` | src/eeveetuber/media/vad.py:211-223 | Trimming ends with exact totals within every bound and never cuts into a stretch that fits by itself, so the candidate survives. |
| `VadProofs.HeededKeeps` | src/eeveetuber/media/vad.py:155-170 | The candidate counters describe the current stretch of loud frames. |
| `VadProofs.OpeningStep` | src/eeveetuber/media/vad.py:225-250 | A full candidate opens an utterance whose pre-roll, at most `pre_roll_frames`, is what was remembered before it. |
| `VadProofs.SealedIsValid` | src/eeveetuber/media/types.py:113-136 | Every finished utterance passes every check of `PcmUtterance`. |
| `VadProofs.LoudIsNotQuiet` | src/eeveetuber/media/vad.py:41-42 | Hysteresis: a frame loud enough to start speech never counts as silence. |
| `Vad.IsAbove` | src/eeveetuber/media/vad.py:289-296 | The sample loop computes the specified comparison, which `VadEnergy.AboveIsMeanSquare` says is of mean square and squared threshold. |
| `VadEnergy.SampleInverts` | src/eeveetuber/media/vad.py:293-295 | The detector reads back every signed 16-bit sample from its two bytes, the lower first. |
| `VadEnergy.AboveIsMeanSquare` | src/eeveetuber/media/vad.py:289-296 | A frame is above a threshold exactly when the mean square of its signed samples is at least the threshold squared. |
| `VadEnergy.ConstantFrameIsAbove` | src/eeveetuber/media/vad.py:289-296 | A frame of constant amplitude is above a threshold exactly when the amplitude is, whatever its sign. |
| `VadEnergy.DurationIs` | src/eeveetuber/media/types.py:81-91 | A frame of n sample frames lasts n sampling periods, rounded down to nanoseconds. |
| `VadRuns.AdmitsExactly` | src/eeveetuber/media/vad.py:136-151 | Which frame a stream accepts next, in terms of the frames heard so far. |
| `Vad.IsValidUtterance` | src/eeveetuber/media/types.py:113-136 | The loop over frames decides the validity of an utterance. |
| `Vad.EnergyVoiceActivityDetector.constructor` | src/eeveetuber/media/vad.py:83-103 | A new detector is idle and valid. |
| `Vad.EnergyVoiceActivityDetector.Process` | src/eeveetuber/media/vad.py:115-151 | Refuses exactly the inadmissible frames without changing anything; otherwise the fields follow the specification and the returned events are what was emitted. |
| `Vad.EnergyVoiceActivityDetector.FinishStream` | src/eeveetuber/media/vad.py:125-134 | Ends the utterance in progress, if any, and forgets everything. |
| `Vad.EnergyVoiceActivityDetector.ProcessIdle` | src/eeveetuber/media/vad.py:153-179 | The idle branch on the fields. |
| `Vad.EnergyVoiceActivityDetector.ProcessActive` | src/eeveetuber/media/vad.py:181-209 | The speaking branch on the fields. |
| `Vad.EnergyVoiceActivityDetector.RememberIdleFrame` | src/eeveetuber/media/vad.py:211-223 | The trimming loop on the history. |
| `Vad.EnergyVoiceActivityDetector.StartUtterance` | src/eeveetuber/media/vad.py:225-250 | The remembered frames become the utterance. |
| `Vad.EnergyVoiceActivityDetector.FinishUtterance` | src/eeveetuber/media/vad.py:252-280 | The utterance is sealed, reported and cleared. |
| `Resampler.ChunkingIsInvisible` | apps/operator/mic-worklet.js:23-61 | However the same signal was cut into blocks, the same frames were posted and the same samples are waiting. |
| `Resampler.MicrophoneProcessor.constructor` | apps/operator/mic-worklet.js:4-21 | A new processor is valid for any positive rates. |
| `Resampler.MicrophoneProcessor.Process` | apps/operator/mic-worklet.js:23-36 | The signal grows by the downmix of the block; by validity the outputs are then exactly the interpolations of the whole signal at k times the ratio for the k whose right neighbour is known, in consecutive frames, and at most one source sample is retained. |
| `Resampler.MicrophoneProcessor.Hear` | apps/operator/mic-worklet.js:28-33 | The mixing loop appends the downmix. |
| `Resampler.MicrophoneProcessor.ResampleAvailableInput` | apps/operator/mic-worklet.js:38-61 | Puts out everything that can be interpolated, terminates, and retains at most one sample. |
| `Resampler.MicrophoneProcessor.EmitNext` | apps/operator/mic-worklet.js:40-53 | One output is the interpolation of the whole signal at its position. |
| `Resampler.MicrophoneProcessor.Put` | apps/operator/mic-worklet.js:44-53 | A full frame is posted and a new one begun. |
| `Resampler.MicrophoneProcessor.DropConsumed` | apps/operator/mic-worklet.js:56-60 | The splice keeps the position in the whole signal and leaves at most one sample. |
| `Resampler.MicrophoneProcessor.Stop` | apps/operator/mic-worklet.js:15-20 | After the stop message nothing more is posted. |
| `Resampler.MixSample` | apps/operator/mic-worklet.js:30-32 | The mean of the channels, missing samples counting as zero. |
| `Resampler.ReadyExactly` | apps/operator/mic-worklet.js:39-39 | When the next output is not ready, exactly the ready ones have been put out. |
| `Resampler.ResamplesExtends` | apps/operator/mic-worklet.js:40-44 | Later input changes no sample already put out. |
| `Resampler.FramesUnique` | apps/operator/mic-worklet.js:48-53 | A stream of samples can be cut into whole frames and a shorter rest in one way only. |
| `Resampler.LinesAreReproduced` | apps/operator/mic-worklet.js:40-44 | A signal that is a straight line is put out as the same line at the new rate. |
| `Resampler.EqualChannels` | apps/operator/mic-worklet.js:28-33 | Channels that agree are mixed down to what they agree on. |
| `Resampler.PaddingIsSilent` | apps/operator/mic-worklet.js:30-32 | Samples that a channel does not have count as silence. |
| `SseProofs.DecodesExactly` | src/eeveetuber/adapters/openai_compatible/model.py:172-234 | A chunking decodes exactly when every line and payload is within the limit, every payload is valid UTF-8, and no chunk ends in an unfinished line over the limit. |
| `SseProofs.ChunkingExactly` | src/eeveetuber/adapters/openai_compatible/model.py:172-197 | A chunking decodes exactly when the whole body does and no chunk ends in an over-long unfinished line; then the events are the same. |
| `SseProofs.ChunkingsAgree` | src/eeveetuber/adapters/openai_compatible/model.py:172-197 | Any two chunkings that decode give the same events. |
| `SseProofs.SuccessDependsOnChunking` | src/eeveetuber/adapters/openai_compatible/model.py:184-186 | A carriage return at the end of a chunk still counts towards the limit, so success itself can depend on chunking. |
| `SseProofs.EventsAreBlocks` | src/eeveetuber/adapters/openai_compatible/model.py:199-234 | The events are, block by block between blank lines, the values of the data fields joined by line feeds. |
| `SseProofs.EventsAreBounded` | src/eeveetuber/adapters/openai_compatible/model.py:218-234 | No event payload exceeds `max_event_bytes`. |
| `SseProofs.DrainSplit` | src/eeveetuber/adapters/openai_compatible/model.py:175-183 | Draining a longer buffer is draining its beginning and going on with what was left. |
| `SseRoundTrip.DataValueExactly` | src/eeveetuber/adapters/openai_compatible/model.py:207-216 | Which lines carry which data: after the colon one leading space is dropped, and no other. |
| `SseRoundTrip.WrittenIsRead` | src/eeveetuber/adapters/openai_compatible/model.py:172-234 | Texts written as events decode to the same texts, however the stream was cut, unless a chunk ends in an over-long unfinished line. |
| `SseRoundTrip.BomIsDropped` | src/eeveetuber/adapters/openai_compatible/model.py:200-202 | A byte order mark before the first line is as if it were not there. |
| `Sse.SseDecoder.constructor` | src/eeveetuber/adapters/openai_compatible/model.py:165-170 | A new decoder is empty and valid. |
| `Sse.SseDecoder.Feed` | src/eeveetuber/adapters/openai_compatible/model.py:172-186 | The loop over fields computes the specified outcome; events are bounded; what is left in the fields is stated for success and for the protocol error. |
| `Sse.SseDecoder.Finish` | src/eeveetuber/adapters/openai_compatible/model.py:188-197 | The unfinished line and the pending event are flushed; the fields are stated for success and error. |
| `Sse.SseDecoder.ConsumeLine` | src/eeveetuber/adapters/openai_compatible/model.py:199-223 | Byte order mark, size, blank line, comment, field and data handling. |
| `Sse.SseDecoder.Dispatch` | src/eeveetuber/adapters/openai_compatible/model.py:225-234 | The collected lines become one event, or a protocol error if they are not UTF-8. |
| `Utf8.DecodeEncoded` | src/eeveetuber/adapters/openai_compatible/model.py:231-234 | Every text decodes from its encoding (section 3 of RFC 3629). |
| `Utf8.EncodeDecoded` | src/eeveetuber/adapters/openai_compatible/model.py:231-234 | The strict decoder accepts nothing but encodings. |
| `VoiceEpochs.FinalsAreCurrent` | src/eeveetuber/application/voice_input.py:288-331 | In every interleaving finals are delivered only while no newer speech has started, and in strictly increasing epoch order. |
| `VoiceEpochs.OneOutcomeEach` | src/eeveetuber/application/voice_input.py:234-286 | Each ended utterance gets at most one terminal outcome, and none only while it is queued or recognized, or because it was superseded or the input closed. |
| `VoiceEpochs.EndsFindTheirEpoch` | src/eeveetuber/application/voice_input.py:185-220 | Over every run: without a close no end of speech lacks its epoch; with one, exactly one end does if the close fell between a start and the end reported for the same frame and that frame is handled further, and none otherwise. The job queue stays within its bound. |
| `VoiceEpochs.OrphansAfterClose` | src/eeveetuber/application/voice_input.py:214-220 | The same from any state that satisfies the invariant: the number of orphaned ends after a close is read off the state at the close. |
| `VoiceEpochs.CloseCanOrphan` | src/eeveetuber/application/voice_input.py:214-220 | It happens: one frame that starts and ends speech, closed in between. |
| `VoiceEpochs.PartialsAreCurrent` | src/eeveetuber/application/voice_input.py:313-319 | Partials are shown only for the latest speech, with strictly increasing revisions. |
| `VoiceEpochs.NextKeeps` | src/eeveetuber/application/voice_input.py:170-349 | Every step of frames, recognizer, worker and close keeps the invariant. |
| `VoiceEpochs.FinalIsDelivered` | src/eeveetuber/application/voice_input.py:320-326 | In every run the latest speech, once its recognizer has yielded a final and then ends, is delivered as final; without a final it is not. |
| `VoiceEpochs.PartialIsShown` | src/eeveetuber/application/voice_input.py:301-319 | In every run a partial of the latest speech is shown exactly when it is well formed, no final came before it, and its revision is newer than all that were shown. |
| `VoiceEpochs.SupersededIsCancelled` | src/eeveetuber/application/voice_input.py:185-192 | In every run a recognition that newer speech has superseded is cancelled, and only newer speech or a close cancels one. |
| `VoiceEpochs.CloseCancels` | src/eeveetuber/application/voice_input.py:214-226 | Closing cancels the running recognition and forgets the speech in progress; what ends by that cancellation is not reported. |
| `MemoryProofs.GenerationsAreDense` | src/eeveetuber/storage/memory_repository.py:268-277 | Over every run the generations in each namespace are exactly 1..current, in order, whatever status candidates enter with. |
| `MemoryProofs.MemoryIsOneChain` | src/eeveetuber/storage/memory_repository.py:250-318 | The revisions of a memory form one unbranched parent chain that ends at its current revision; identifiers and candidates are never reused. |
| `MemoryProofs.CommitsAreWarranted` | src/eeveetuber/storage/memory_repository.py:342-373 | Each commit came from a policy auto-commit or a named approver, never against a reject or quarantine class, and says what its candidate said; the classes are spelled out by `MemoryPolicy.ClassifyExactly`. |
| `MemoryProofs.CommitsExactly` | src/eeveetuber/storage/memory_repository.py:117-174 | An open candidate is committed exactly when the decision warrants it and its base is current; `MemoryPolicy.AutomaticIsCommitted` and `MemoryPolicy.UnapprovedIsAutomatic` say so of its own fields. |
| `MemoryProofs.ReapplyingChangesNothing` | src/eeveetuber/storage/memory_repository.py:128-141 | Any decision about a committed candidate changes nothing; it answers with its one revision, except exactly when the candidate was first added as committed already, which is the missing-revision error. |
| `MemoryProofs.ClaimedCommitHasNoRevision` | src/eeveetuber/storage/memory_repository.py:128-135 | A candidate added as committed already: whatever is decided about it is the missing-revision error. |
| `MemoryProofs.FirstCommitWins` | src/eeveetuber/storage/memory_repository.py:252-264 | Of two candidates that revise the same revision, the second is stale once the first is committed. |
| `MemoryProofs.DescentRises` | src/eeveetuber/storage/memory_repository.py:268-301 | Within one namespace a later revision of a memory has a later generation. |
| `MemoryProofs.GenerationRisesExactly` | src/eeveetuber/storage/memory_repository.py:268-301 | In every run a revision that is written has a later generation than its parent exactly when its namespace had already come as far as the parent; within one namespace it always has. |
| `MemoryProofs.GenerationsCanStall` | src/eeveetuber/storage/memory_repository.py:259-301 | A run in which a note is revised from another namespace and both revisions have generation 1. |
| `MemoryProofs.PolicyStopsForbiddenKinds` | src/eeveetuber/memory/promotion.py:40-44 | Skills, policies and security notes never reach the kind check of a commit. |
| `MemoryProofs.NextKeeps` | src/eeveetuber/storage/memory_repository.py:68-174 | Every transaction, with rollback on error, keeps the invariant. |
| `MemoryPolicy.ClassifyExactly` | src/eeveetuber/memory/promotion.py:40-82 | Rejected are exactly the forbidden kinds, quarantined exactly the other candidates of public viewers and unverified imports, and automatic exactly the five kinds with owner or operator trust, consent, confidence from 0.9, public or internal sensitivity and no contradictions. |
| `MemoryPolicy.NothingUntrustedIsRemembered` | src/eeveetuber/memory/promotion.py:46-50 | Over every run no revision comes from a forbidden kind, a public viewer or an unverified import. |
| `MemoryPolicy.UnapprovedIsAutomatic` | src/eeveetuber/storage/memory_repository.py:342-359 | Over every run a revision without a named approver comes from an automatic candidate. |
| `MemoryPolicy.AutomaticIsCommitted` | src/eeveetuber/storage/memory_repository.py:117-174 | An open automatic candidate that is up to date is committed without review. |
| `MemoryPolicy.DecisionsDecide` | src/eeveetuber/storage/memory_repository.py:342-373 | For each decision that does not commit, exactly when it stands and what it changes. |
| `MemoryPolicy.AddsExactly` | src/eeveetuber/storage/memory_repository.py:68-79 | A candidate is added exactly when its base is named in full and no different one has its identifier; then it is stored and nothing else changes. |
| `MemoryPolicy.TerminalIsFinal` | src/eeveetuber/storage/memory_repository.py:142-143 | Rejection and quarantine are final. |
| `Memory.MemoryRepository.constructor` | src/eeveetuber/storage/memory_repository.py:54-61 | An empty store is valid. |
| `Memory.MemoryRepository.AddCandidate` | src/eeveetuber/storage/memory_repository.py:68-79 | Idempotent for equal data, a conflict for different data, no change on a conflict; validity kept for any status. |
| `Memory.MemoryRepository.ApplyDecision` | src/eeveetuber/storage/memory_repository.py:117-174 | The whole transaction as specified; on an error every row is as before. |
| `Memory.MemoryRepository.Commit` | src/eeveetuber/storage/memory_repository.py:237-334 | Writes generation, record, revision and candidate together, or nothing. |
| `Memory.MemoryRepository.RevisionOf` | src/eeveetuber/storage/memory_repository.py:129-133 | The revision made from a candidate. |
| `ContextProofs.WithinBudgets` | src/eeveetuber/memory/context.py:245-302 | Every tier stays within its budget and all within the total, counted over the retained texts. |
| `ContextProofs.NothingLost` | src/eeveetuber/memory/context.py:248-294 | Every competing entry, the fallback included, ends in exactly one of selected or dropped. |
| `ContextProofs.OnlyDemotableMoves` | src/eeveetuber/memory/context.py:277-286 | Mandatory entries are never demoted, and nothing is demoted below the last tier. |
| `ContextProofs.RetainedArePrefixes` | src/eeveetuber/memory/context.py:257-275 | Retained texts are prefixes, only mandatory entries are shortened, and the selection is sorted. |
| `ContextProofs.NothingRejectedStillFits` | src/eeveetuber/memory/context.py:249-256 | Nothing a tier turned away would still fit into what the tier left unused. |
| `ContextProofs.DroppedForCause` | src/eeveetuber/memory/context.py:257-294 | Only what cannot be demoted is dropped, and a mandatory entry only if not even a cut of it would fit into what its tier left unused. |
| `ContextProofs.OrderDoesNotMatter` | src/eeveetuber/memory/context.py:208-320 | For entries with unique identifiers the snapshot does not depend on the order of the input. |
| `ContextPriority.ImportanceDecides` | src/eeveetuber/memory/context.py:245-296 | In every tier, what was turned away did not fit beside the selected entries that outrank it; the selection is listed by tier and descending priority. |
| `ContextPriority.FallbackExactly` | src/eeveetuber/memory/context.py:212-229 | The minimal canon competes exactly when no mandatory canon was given, as a mandatory entry of the first tier with its own text and priority. |
| `ContextPriority.CutsAreReported` | src/eeveetuber/memory/context.py:266-274 | Every cut is reported with its tokens before and after, and nothing else is. |
| `Context.Compile` | src/eeveetuber/memory/context.py:208-320 | The loops compute the specified snapshot. |
| `Context.PackTier` | src/eeveetuber/memory/context.py:248-294 | One tier: select, cut, demote or drop. |
| `Context.Queues` | src/eeveetuber/memory/context.py:230-231 | Entries are queued by tier, in order. |
| `Ranking.SortForgetsOrder` | src/eeveetuber/memory/context.py:356-357 | Sorting by mandatory, priority and identifier forgets the order of the input. |
| `Ranking.TextBeforeExactly` | src/eeveetuber/memory/context.py:356-357 | Identifiers compare as in a dictionary: a text that starts another comes first, and otherwise the first difference decides. |
| `Tokens.Truncate` | src/eeveetuber/memory/context.py:57-74 | The byte cut and the decoding loop give the specified truncation; the loop after it never runs. |
| `Tokens.TruncatedFits` | src/eeveetuber/memory/context.py:57-74 | A truncated text is a prefix whose estimate is within the budget. |
| `Tokens.CutIsLongest` | src/eeveetuber/memory/context.py:62-71 | Before trailing space is stripped, no longer prefix of whole characters fits. |
| `Tokens.OnlyCutDecodes` | src/eeveetuber/memory/context.py:64-71 | Of the byte prefixes between the cut and the limit only the cut decodes. |
| `Tokens.TruncatedIsCut` | src/eeveetuber/memory/context.py:62-74 | A text that has to be cut is the longest prefix of whole characters within four bytes a token, less its trailing whitespace. |
| `Tokens.EstimateIsCeiling` | src/eeveetuber/memory/context.py:51-55 | Four bytes to a token, rounded up. |
| `HistoryProofs.HistoryIsBounded` | src/eeveetuber/application/conversation_history.py:73-121 | The rendered history never exceeds `max_chars` and is a chronological choice, no message twice, of non-empty prefixes from the last `max_messages` eligible records. |
| `HistoryProofs.LongestPrefixKept` | src/eeveetuber/application/conversation_history.py:123-150 | The search keeps the longest fitting prefix whenever it has two characters or more, and a prefix of one character exactly when the length of the message plus two starts with the binary digits 1 and 0. |
| `HistoryProofs.OneCharacterMissed` | src/eeveetuber/application/conversation_history.py:132-150 | A message of four characters of which one would fit: it is missed. |
| `HistoryProofs.WholeTextMarkedCut` | src/eeveetuber/application/conversation_history.py:128-150 | The whole text is kept and marked truncated exactly when the message is one character over the limit and has at least two characters. |
| `HistoryProofs.ProbesOneExactly` | src/eeveetuber/application/conversation_history.py:135-149 | Which message lengths make the halving probe length one. |
| `History.ShorterFits` | src/eeveetuber/application/conversation_history.py:153-173 | Escaped length grows with content, so a prefix of a fitting prefix fits. |
| `History.FitMessage` | src/eeveetuber/application/conversation_history.py:123-150 | The binary search computes the specified prefix. |
| `History.Compile` | src/eeveetuber/application/conversation_history.py:73-121 | Newest to oldest, what fits before what was already taken. |
| `History.Collect` | src/eeveetuber/application/conversation_history.py:82-111 | The eligibility loop with its set of seen identifiers. |
| `HistoryExact.EligibleExactly` | src/eeveetuber/application/conversation_history.py:84-111 | The eligible messages are exactly those of the records that count, in order: of this session and first with their identifier, said by user or assistant, of an earlier generation, not blank, cut to the limit and marked so exactly if cut. |
| `HistoryReading.RenderedReadsBack` | src/eeveetuber/application/conversation_history.py:153-173 | A reader of the JSON inside the two tags reads back every message with every field, whatever the texts contain. |
| `HistoryReading.CompiledReadsBack` | src/eeveetuber/application/conversation_history.py:73-121 | What the compiler hands on is empty, or reads back as the messages it lists; a policy that allows no message, no character or no time gives nothing. |
| `HistoryExact.EscapedReadsBack` | src/eeveetuber/application/conversation_history.py:164-164 | Every text survives being escaped as a JSON string. |
| `AudioFrames.DecodeEncoded` | src/eeveetuber/api/audio_frames.py:98-201 | Decoding an encoded frame gives the frame back, for every valid frame within the payload limit whose media type fits the header. |
| `AudioFrames.EncodeDecoded` | src/eeveetuber/api/audio_frames.py:127-201 | Every accepted packet is the encoding of the frame it decodes to. |
| `AudioFrames.EncodeFailsExactly` | src/eeveetuber/api/audio_frames.py:101-123 | Of the eighteen packed fields of a valid frame only the header length can overflow its width, exactly for a media type above 65535 - 124 bytes. |
| `AudioFrames.ValidButNotEncodable` | src/eeveetuber/api/audio_frames.py:85-104 | A valid frame that cannot be encoded. |
| `AudioFrames.DecodesExactly` | src/eeveetuber/api/audio_frames.py:98-201 | A packet decodes to a frame exactly when the frame is valid, the packet is its encoding and the payload is within the limit. |
| `AudioFrames.LayoutOfIdentity` | src/eeveetuber/api/audio_frames.py:25-28 | At which offset magic, version, flags, header length and the five identities stand. |
| `AudioFrames.LayoutOfAudio` | src/eeveetuber/api/audio_frames.py:98-124 | At which offset the numbers, lengths, media type and audio stand. |
| `AudioFrames.DecodedIsSound` | src/eeveetuber/api/audio_frames.py:68-95 | A decoded frame has a positive rate, at least one channel and a media type in ASCII without whitespace that starts with `audio/`. |
| `VoiceFrames.DecodeEncoded` | src/eeveetuber/api/input_audio_frames.py:80-172 | Decoding an encoded frame gives the frame back. |
| `VoiceFrames.EncodeDecoded` | src/eeveetuber/api/input_audio_frames.py:102-172 | Every accepted packet is the encoding of the frame it decodes to. |
| `VoiceFrames.DecodedIsPcmFrame` | src/eeveetuber/api/input_audio_frames.py:68-77 | What arrives is a frame the voice activity detector can take. |
| `VoiceFrames.DecodesExactly` | src/eeveetuber/api/input_audio_frames.py:80-172 | A packet decodes to a frame exactly when the frame is valid, the packet is its encoding and the payload is within the limit. |
| `VoiceFrames.Layout` | src/eeveetuber/api/input_audio_frames.py:26-29 | At which offset each field stands. |
| `Octets.UnpackPacked` | src/eeveetuber/api/audio_frames.py:28-29 | Numbers of fixed widths survive being packed in network byte order. |
| `Octets.PackedAt` | src/eeveetuber/api/audio_frames.py:28-29 | Each packed number stands behind the widths before it, most significant byte first. |
| `Octets.PackUnpacked` | src/eeveetuber/api/audio_frames.py:28-29 | Packed bytes survive being read as numbers. |

## Left out

- FastAPI and WebSocket plumbing, HTTP requests, provider JSON, SQL, full-text search, settings, logging and
  the command line: input and output, or thin wrappers.
- The browser interface, which is driven by promises and the DOM; the fake adapters and the translation,
  protocol, director and intent mappings, which are single-branch mappings; the interaction state table, which
  is a finite table; and the event recorder, which is a simpler bounded queue than the mailbox.
- Pipeline: the teardown in the `finally` block of `run`, when the publisher has already stopped; how a
  provider reacts to cancellation beyond what its script says; a publisher that is woken by an item and a
  cancelled token at once may take either in the model, while the code prefers the cancellation.
- Pipeline: providers are scripts, so one that never yields is not modelled; a stage that can move is
  assumed to be given a turn.
- Scheduler: detail strings, the payload of cues, non-finite clock readings; `log` and `held` are history
  fields the code does not have; trimming the marker store is a slice instead of a loop.
- Session: coalescing in the inbox, lifecycle callbacks, child tasks and the event observer; a session is
  one transition system, so the classes for mailbox and cancellation are not instantiated in it but their
  specification is what its steps use (`Mailbox.Offer` for a put, `Session.Accepts` for a commit).
- Session: the generation of a published event is the one it was published under, which is what the payload
  carries for turn output.
- Mailbox: the lock, the condition variable and the wait itself; a waiting put is repeated passes of
  `TryPut`, and `put_wait` rechecks on each pass as modelled in `Session`.
- Cancellation: the time of cancellation, thread safety, and `ensure_current`, which raises exactly where
  `accepts` is false.
- Voice activity detection: utterance identifiers are the pair that the source hashes into a UUID; the
  candidate counters and the fields of the active utterance are kept as two records.
- Resampler: samples are real numbers, so rounding is not modelled; a frame size of zero is excluded.
- VoiceEpochs: an `await` that happens not to suspend is a step boundary too, which only adds interleavings.
- VoiceEpochs: transcripts, timeouts as durations, and what the sink does; a recognizer may swallow or raise
  a cancellation at any time.
- Memory: revisions carry the fields the rules read and the text, not the validity interval, visibility,
  evidence or timestamps; deleting a memory is not part of the source's repository.
- Context: rendering, snapshot identifiers and the snapshot cache.
- Tokens.Truncate: the loop that shortens a decoded text further is shown never to run, and is not written.
- History: the load timeout and fetch limit; content outside the JSON escapes of Python's encoder is kept as
  it is.
- AudioFrames and VoiceFrames: UUIDs are their 128-bit numbers, and error messages are not distinguished.
