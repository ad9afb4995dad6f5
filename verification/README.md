# An agent loop, modelled and proved in Dafny

The repository runs a language-model agent: it sends the conversation to a provider, carries out
the tool calls the model answers with, puts the results into the conversation and asks again,
until the model has delivered its answer and no message source has anything more to say. Around
that loop it retries failed streams, shrinks histories that have grown too long, narrows the
visible tools turn by turn, hides the model's thinking, and projects the history and the tool
schemas into shapes that providers accept.

This project models those parts and proves what holds of them on every input and in every run.

| part | files |
|---|---|
| the loop as a state machine, its laws over whole runs, and the program | AgentLoop, RunTheorems, Reactions, AgentRun |
| one provider turn: max-token ladder inside overflow recovery | Streaming |
| tool gates composed into one allowlist | Gates |
| a tool batch: cap split, preparation, sequential and parallel dispatch, sibling abort, vote | ToolCallCap, Dispatch, Sequential, Parallel, SiblingAbort, BatchExecution |
| unique tool-call ids for provider-visible histories | Naming, History, Pairing, Renaming, HistoryNormalizer |
| the loop and the id normalizer together | TranscriptPairing, Composition, Attribution |
| the streaming filter for thinking tags | ThinkingTags, ThinkingFilter, Tokenization |
| clipping and trimming of old tool results | Utf8, ToolResultBudget, Clipping, TokenBudget |
| tool-schema flattening and the `items: true` rewrite | Json, JsonSchema, SchemaFlattening, FlatShape, SchemaFlattener, SchemaQuirks, ToolSchema |
| shared vocabulary | Wrappers, Transcript, Config |

How the model is built:

- Code that changes state is a method with the source's loops over a transcript object, an event
  sink, local variables or a sequence it overwrites, and its postcondition equates the new state
  with a specification function of the old one. The laws are lemmas about those functions; those
  whose names end in `Exactly` say what a function computes in terms of its inputs, spelled out, rather
  than of its own parts.
- The environment is a value the caller supplies: for every turn, whether the run is cancelled,
  how the provider answers each attempt, what every tool body would do, in which order parallel
  bodies finish and when the user cancels, and what the message sources hand out. A law for all
  such values is a law for every behaviour of the environment. When a script is used up the run
  is *waiting*, a third kind of outcome beside success and error.
- A poll of a message source is recorded in the same log as the events, so that "nothing is asked
  any more" is a statement about that log.
- Hooks, gates, context transforms, the size estimate and the protocol policy are pure functions;
  the overflow-recovery hook may answer each of its calls differently.
- Error prose is a tag that says why. Tool-result text is UTF-8 bytes, since clipping counts bytes.

Where the code and its comments differ, the code is followed:

- `src/exec.rs:68` promises results in source order. Under a cap the executed calls come first and
  the deferred ones after them (`src/exec.rs:172-187`), so the promise holds exactly when the cap
  defers no call that stands before one it lets run (`BatchExecution.AnswersInSourceOrderExactly`).
  When the overtaking call has the deferred call's id, normalization names their results after each
  other; `Attribution.AttributionExact` gives the exact condition and `CapCanSwapAnswers` an instance.
- The branch at `src/exec.rs:109`, for a batch with nothing to execute, cannot be reached: the
  first call of a batch always runs (`ToolCallCap.SplitConserves`).
- A refused call of a tool that aborts its siblings does so in sequential dispatch only
  (`src/exec.rs:444-468` against `src/exec.rs:668-682`): in parallel dispatch exactly an executed
  failure does (`SiblingAbort.BatchTokenExact`), and `RefusalSparesSibling` is an instance.
- A `<` that breaks off a possible tag is flushed with it, so in `<<thought>` nothing is hidden
  (`Tokenization.DoubledBracketHidesNothing`).
- When every gate returns the empty set there is no allowlist at all.
- A result over its cap that already quotes the clipping marker's prefix is left unclipped.
- A `oneOf` that is not an array is dropped from a tool schema (`src/tool.rs:836-842`).

## Model

| member | source | states |
|---|---|---|
| `AgentLoop.TakeTurnLaw` | src/run.rs:190-377 | One pass of the inner loop either records exactly one well-shaped turn (transcript, new messages and events all extended by that turn's and nothing else; each call answered; its reaction, its mode and whether it terminates determined) or stops in an error or waiting, with exactly the messages and events of a turn cut short before its stream, in it, or in its own batch |
| `AgentLoop.SettleLaw` | src/run.rs:379-395 | After a recorded turn the loop carries on iff the turn asked to or a poll handed something out; otherwise it has ended; follow-ups are asked exactly after quiet turns |
| `AgentLoop.RunLaws` | src/run.rs:179-407 | The loop invariant holds in every state of every run: the record of turns is proper, all but the last carry on and in any state but a normal return the last one too; transcript, live history (shrunk or not), events and pending messages are exactly those of the record, plus those of one cut turn when the run failed or waits; and every request of a turn was made for that turn's own history or for one the recovery hook shrank it to |
| `RunTheorems.TurnAnswersAll` | src/run.rs:325-365 | An assistant with tool calls is followed at once by exactly one result per call, every id as often among the results as among the calls |
| `RunTheorems.FinishedTranscript` | src/run.rs:179-407 | A normal return: new messages are the prompts and then each turn's; every turn's calls are answered right behind it; a result that matches no call is the synthesized fallback, and only as the very last message; the live history is the initial one and each turn's messages, with what recovery shrank it to in place of what stood before that turn's assistant message |
| `RunTheorems.EndsExactlyAtFinalTurn` | src/run.rs:190-396 | The termination latch, whether the run is going, returned, failed or waiting: a run that returned did so at a turn that terminated, or that had no calls and no nudge and whose sources, asked for steering and then for follow-ups, had nothing; every other turn moved on; steering is asked unless the turn terminated, follow-ups exactly when nothing else wants more; a turn terminates iff it delivered the fallback or its batch deferred no call and all counted reports, at least one, voted to stop; after a terminating turn's TurnEnd only AgentEnd follows |
| `RunTheorems.TurnTakenExactly` | src/run.rs:211-377 | In every run a turn that is not cancelled asks the provider for the live history with the pending messages behind it; its stream waiting or given up, the run waits or fails with that error; an accepted message's calls are run as one batch under the allowlist it came with, which leaves the run waiting, ends it with its error or gives the turn its reports and verdict; the turn is recorded so, with the steering asked for unless it terminated; calls of the recovery hook are counted on from turn to turn |
| `RunTheorems.CancelledBetweenTurns` | src/run.rs:211-214 | A loop that would take another turn but finds the run cancelled stops as aborted with nothing else changed, and stays so, whatever the scripts behind it say |
| `RunTheorems.FailureHasReason` | src/run.rs:179-407 | Every error of a run comes from its last turn: the run was cancelled before it, its stream was given up with that error, or a body that was cleared to run was fatal or aborted |
| `RunTheorems.RecordsExactly` | src/run.rs:233-377 | What a recorded turn adds: injected messages, the assistant message, one result message per report or the delivery, the nudge; its events in order, TurnEnd with those results, the polls behind it; and what those polls hand on |
| `RunTheorems.PolledOnceInOrder` | src/run.rs:211-396 | Every polled steering or follow-up message is appended to the transcript exactly once and in order; none is left behind by a normal return |
| `RunTheorems.FinishedTrace` | src/run.rs:91-404 | The events of a normal return: AgentStart, optional RunIdentified, per turn TurnStart to TurnEnd, then AgentEnd with the new messages; as many TurnStart and TurnEnd events as accepted turns |
| `RunTheorems.FailedTrace` | src/run.rs:179-407 | A run that failed, or waits inside a turn, has announced exactly the events of its recorded turns and of one cut turn: none, its stream's, or also the beginning of the tool events of its own running calls; its new messages are the recorded ones, then what the cut turn injected, then the assistant message whose calls were running |
| `RunTheorems.StartsWithinRequest` | src/exec.rs:839-967 | In every recorded turn of every run a body is started only for a call that is registered, inside the allowlist that the gates composed for that turn's last request, parsed, valid, and blocked by no before-hook, which is shown the live history |
| `RunTheorems.CutStartsWithinRequest` | src/exec.rs:839-967 | Every failed or waiting run was cut short in a turn, whose events close its trace, that started only bodies of calls cleared in the same way |
| `Reactions.ReactionsExactly` | src/run.rs:262-323 | In every run, a turn that called no tools is answered by nothing without a fallback; by a nudge if the fallback nudges eagerly and the turn was not narrowed to it; otherwise, if the fallback is eager or the turn was narrowed to it and shows any text, by the delivery of that text: the visible parts of the reading of its text blocks, without the white space around them |
| `Reactions.StripExactly` | src/thinking_filter.rs:218-223 | Stripping a text leaves the visible parts of its reading, and a rest that begins no tag, without the white space around them and with nothing else removed |
| `AgentRun.InnerRun` | src/run.rs:179-407 | The nested loops refine the state machine on every script, AgentEnd included |
| `AgentRun.Run` | src/run.rs:91-130 | A run from prompts announces its opening and the trace of the state machine started on context and prompts; it returns the new messages if that ended, the error if it failed |
| `AgentRun.RunContinue` | src/run.rs:138-168 | A continuation is refused, without any event, iff the context is empty or ends with an assistant message; otherwise as a run without prompts |
| `Streaming.LadderLaws` | src/run.rs:568-688 | Whatever the provider answers: at most 32 escalations, chained (each new cap is the saturated double of the one before, attempts 1, 2, ...); each attempt is asked with the cap in force, the allowlist of its gates, and the recovery note and reasoning lowered from medium and above to minimal exactly if an earlier attempt was lost to the transport before any output; each answer is retried (empty, transient, rate-limited or zero-output failures, a closed stream, a message that stopped in error), escalated (truncated, cap can grow), accepted, or turned into its own error, and a cancellation while backing off into an abort; a returned turn is no error or abort, truncated only if the cap is absent, 0 or saturated, and comes with the allowlist of the last request |
| `Streaming.RecoveryLaws` | src/run.rs:511-566 | Overflow recovery, exactly: it runs just when the ladder over a history ends in a context overflow, there is a hook and the run is not cancelled, and goes on as long as the hook makes the history strictly smaller; outcome and last events are those of the ladder over the history left behind, with each earlier ladder's events and its HistoryRecovered before them; the hook is called once per successful shrink, and once more iff the last history still overflows, in which case its answer is not smaller |
| `Streaming.RecoveryEvents` | src/run.rs:511-688 | Of the modelled events, streaming announces only requests, escalations and recovered histories |
| `Streaming.RecoveryRequests` | src/run.rs:511-688 | Every request of a turn carries the transformed context, with or without the recovery note, of the turn's history or of one the recovery hook shrank it to, and the allowlist composed for it |
| `Streaming.SentInSteps` | src/run.rs:695-760 | What is sent is reached from the history in steps: each transform, in registration order, gets what the one before it left |
| `Streaming.StreamAssistantResponse` | src/run.rs:695-878 | One attempt: transforms in registration order, the allowlist composed from what they left, one request announced, the stream's end as the reply; what transforms and gates report about themselves is not modelled |
| `Streaming.StreamWithMaxTokensRecovery` | src/run.rs:568-688 | The retry loop computes the ladder's outcome and announces exactly its events |
| `Streaming.StreamWithOverflowRecovery` | src/run.rs:511-566 | The recovery loop computes the recovery's outcome, leaves its history in place and announces exactly its events |
| `Gates.ComposeExact` | src/run.rs:972-1107 | Over the gates that speak (all but advisory ones outranked in priority by one that suppresses them): the allowlist is never empty; it is the intersection of their sets when that is non-empty, otherwise a non-empty one of those sets that wins by priority, then smaller size, then smaller name; there is none only when no gate that speaks offers a non-empty set |
| `Gates.SuppressionLeavesSome` | src/run.rs:1021-1048 | Suppression never silences every gate |
| `Gates.SilencedDoNotMatter` | src/run.rs:1021-1048 | Leaving out a decision that is suppressed leaves the allowlist as it is, even when it suppresses others itself |
| `Gates.DecisionsInOrder` | src/run.rs:972-1019 | The decisions are those of the gates that returned one, in registration order, with the gate's own name, priority, class and suppression |
| `Gates.AllowlistIgnoresRegistrationOrder` | src/run.rs:972-1107 | With distinct plugin names the allowlist does not depend on the order in which gates are registered |
| `Gates.CollectToolAllowlist` | src/run.rs:972-1077 | The accumulating loops compute that composition |
| `ToolCallCap.PartExact` | src/exec.rs:192-224 | Each part of the split keeps source order and holds exactly the calls of its kind |
| `ToolCallCap.DeferredExactly` | src/exec.rs:192-271 | A call is deferred iff there is a cap, it takes a slot (registered, counted and not safe in parallel), and at least max(cap, 1) calls before it do |
| `ToolCallCap.SplitConserves` | src/exec.rs:192-262 | Together the parts hold every id as often as the batch; only slot-taking calls are deferred; the slot-taking executables number min(cap, counted); a non-empty batch always has an executable call, its first |
| `ToolCallCap.SourceOrderExactly` | src/exec.rs:192-224 | The executable calls followed by the deferred ones are the batch in source order if and only if no deferred call stands before an executable one |
| `ToolCallCap.SplitToolCallsForExecution` | src/exec.rs:192-224 | The splitting loop computes the two parts |
| `Dispatch.PreparedExactly` | src/exec.rs:839-967 | A call is ready to run iff it is registered, allowed, carries no parse error, validates and is blocked by no before-hook; otherwise it is refused for the first of these causes, in this order |
| `Dispatch.ErrorsSurvive` | src/exec.rs:1018-1058 | An error stays an error through any chain of after-hooks none of which clears it |
| `Dispatch.FinalizedByHooks` | src/exec.rs:1018-1065 | The final output is reached hook by hook, in registration order, each shown what the one before it left: a replacement result is used, a set error flag and vote override |
| `Dispatch.Finalize` | src/exec.rs:1018-1065 | The two copies of the error flag, updated separately hook by hook, both end as the chain's flag, and the vote is that of the final output |
| `Dispatch.ComputeBatchTerminate` | src/exec.rs:295-324 | The vote: some counted tool voted and all counted ones voted to stop |
| `Dispatch.VoteIgnoresOrder` | src/exec.rs:295-324 | The vote does not depend on the order of the votes |
| `Dispatch.OneNoKeepsGoing` | src/exec.rs:295-324 | One counted call that did not vote to stop keeps the run going |
| `Dispatch.VoteExactly` | src/exec.rs:273-324 | The reports of a batch agree to stop iff some report counts (an unknown tool does) and every one that counts voted to stop |
| `Dispatch.OneCallExactly` | src/exec.rs:705-1065 | One call: its body ran iff it was ready, and its finalized answer or failure is reported, or it ends the run with its own error; a call that was not ready is answered by its first cause |
| `Sequential.AnswersInOrder` | src/exec.rs:420-478 | Unless a body ends the run, every call is answered once, in source order |
| `Sequential.SkippingExact` | src/exec.rs:444-478 | The batch skips iff some call was a dependency failure, and then no call after the first such is started: each gets the sibling answer and a vote to go on |
| `Sequential.ReportsExactly` | src/exec.rs:420-522 | Every report of a sequential batch: up to the first dependency failure each call is answered on its own; every later one is skipped for that failure, names the failed tool and votes to go on |
| `Sequential.DeathHasCause` | src/exec.rs:420-478 | A sequential batch ends the run only at a ready call whose body was fatal or aborted, with that error, and with no dependency failure before it |
| `Sequential.SkippedCountedCallKeepsGoing` | src/exec.rs:453-472 | A skipped counted call forces the run to go on |
| `Sequential.ExecuteSequential` | src/exec.rs:420-522 | The sequential loop computes that progress, its messages and its vote, and announces exactly its events |
| `Parallel.SourceOrder` | src/exec.rs:524-700 | Under every schedule a race that ends without a run-ending failure answers every call exactly once, in source order |
| `Parallel.ScheduleIndependence` | src/exec.rs:420-700 | When no body ends the run and no finished call is a dependency failure, every schedule without a user cancel yields the same reports as sequential dispatch |
| `Parallel.ReachedSound` | src/exec.rs:590-681 | Every state of every schedule: a launched call is unfinished or has exactly one completed entry, a finalized output recorded under that call's own position |
| `Parallel.ExecuteParallel` | src/exec.rs:524-700 | The parallel program computes the race's result and announces starts and ends in source order |
| `SiblingAbort.BatchTokenExact` | src/exec.rs:660-681 | Under every schedule the batch token has been fired iff an executed call of an opted-in tool was recorded as an error before any user cancel; refused calls never fire it |
| `SiblingAbort.ReturnExact` | src/exec.rs:608-657 | When a body returns: an output, or the answer made of a failure, is finalized and recorded in its call's name; an abort is recorded as the sibling answer iff a sibling has failed and the user has not cancelled; any other abort or fatal error ends the batch with that error |
| `SiblingAbort.UserAbortEndsRun` | src/exec.rs:620-641 | A body that reports an abort after the user has cancelled ends the batch as aborted, whether or not a sibling failed |
| `SiblingAbort.AnswersAreBodies` | src/exec.rs:590-681 | Every recorded answer is what the body of its own call returned at the move that let it return, its own outcome as long as no token had fired, or the sibling answer |
| `SiblingAbort.FinalReportsExactly` | src/exec.rs:524-700 | Every report of a finished race: a call that could not run is answered by its first cause, a launched one by what its body returned at its own move, or by the sibling answer |
| `SiblingAbort.FailureHasCause` | src/exec.rs:608-657 | A race fails only at a move in which a launched body was fatal or reported an abort that no failed sibling accounts for, with that error |
| `SiblingAbort.NeverEndsRun` | src/exec.rs:542-681 | If no tool is fatal and none reports an abort before its token fired, no interleaving without a user cancel ends the run, and the token has fired exactly if an executed opted-in call was recorded as an error |
| `SiblingAbort.AbortedSiblingIsError` | src/exec.rs:620-681 | Under every schedule without a user cancel, a call that stops with an abort after an opted-in failure was recorded is, in the finished batch, the sibling answer at its own place, and an error unless an after-hook clears it |
| `SiblingAbort.FailureStopsSibling` | src/exec.rs:620-681 | A batch and schedule in which a failed call stops its sibling |
| `SiblingAbort.RefusedCallDiverges` | src/exec.rs:444-682 | A refused call of an opted-in tool stops later calls in sequential dispatch and never in parallel dispatch |
| `SiblingAbort.RefusalSparesSibling` | src/exec.rs:444-682 | The same batch with the first call refused: its sibling runs to its end in parallel and is skipped sequentially |
| `BatchExecution.BatchAnswersAll` | src/exec.rs:83-190 | A completed batch answers every call exactly once: the executed calls in source order, then the deferred ones in source order |
| `BatchExecution.BatchReportsExactly` | src/exec.rs:75-190 | Every report of a completed batch, in either mode and under any schedule: an executed call is answered as its mode says, a deferred one by the over-cap answer, without being started |
| `BatchExecution.BrokenHasCause` | src/exec.rs:75-190 | A batch breaks only because of a body that was cleared to run and was fatal or aborted, with that error |
| `BatchExecution.AnswersInSourceOrderExactly` | src/exec.rs:68-190 | A completed batch answers its calls in source order if and only if the cap defers no call that stands before one it lets run |
| `BatchExecution.DeferralKeepsGoing` | src/exec.rs:172-190 | A batch that defers a call never ends the run, some call of it runs, and every slot is used |
| `BatchExecution.BatchVote` | src/exec.rs:83-190 | A completed batch ends the run exactly when it deferred no call and its reports agree to stop (some counts, and all that count voted so); a batch without calls does nothing and ends nothing |
| `BatchExecution.ModesAgree` | src/exec.rs:75-190 | When no body ends the run and no finished call is a dependency failure, parallel dispatch under any schedule without a user cancel, once finished, hands back the reports and the verdict of sequential dispatch, and it never fails |
| `BatchExecution.BatchEvents` | src/exec.rs:75-190 | The tool events of a completed batch are those of its reports: one end per call with the flag of its result, one start before it iff the body ran; any other batch announced a beginning of such events, for the first so many of its own running calls |
| `BatchExecution.EventsMatchReports` | src/exec.rs:75-190 | A completed batch announces one start for every report whose body ran and one end for every report, in their order; each result message carries its call's id and tool and the content, flag and details the after-hooks left |
| `BatchExecution.SandboxIsExclusive` | src/exec.rs:100-170 | A batch with a call to a tool that needs the sandbox to itself never starts a body before the one started last has ended |
| `BatchExecution.StartedAreCleared` | src/exec.rs:839-967 | In no batch, dispatch mode or schedule is a body started for a call that is not cleared |
| `BatchExecution.ExecuteToolBatch` | src/exec.rs:75-190 | The batch program computes the batch run and announces exactly its events |
| `Naming.FirstFreeIsLeast` | src/history.rs:65-71 | The suffix search ends, at the least number whose candidate is not reserved |
| `Naming.SuffixBound` | src/history.rs:52-79 | The next suffix less one is at most the renamed count plus the initially reserved ids; the renamed count is the calls less the distinct original ids |
| `Naming.WireLaws` | src/history.rs:58-79 | Wire ids pairwise differ; a first occurrence keeps its id; a repetition gets a candidate that no reserved id equals |
| `Naming.ReplacementExact` | src/history.rs:64-79 | A repetition gets the candidate with the least number, from one on, that is neither reserved nor the wire id of an earlier call |
| `History.NormalizationLaws` | src/history.rs:30-101 | The same for a whole transcript: call ids of the output pairwise distinct, exact renamed count, bounded suffix, first occurrences kept |
| `Renaming.CallsRenamedExactly` | src/history.rs:30-79 | Over the blocks of the transcript: a call keeps its id iff no earlier call carries it; otherwise its new id is `clark_agent_call_` and the least number, from one on, whose candidate no call or result of the transcript mentions and no earlier call got |
| `Renaming.ResultsFollowExactly` | src/history.rs:53-94 | A result behind an assistant message, with only results between, whose id an r-th call of that message carries, being the r-th result for it, gets that call's new id; every other result keeps its own |
| `History.OnlyIdsChange` | src/history.rs:48-101 | Every message keeps its role, place, blocks and all fields other than call ids |
| `History.DistinctUnchanged` | src/history.rs:30-101 | A transcript with distinct call ids is left exactly as it is, with nothing renamed |
| `History.Idempotent` | src/history.rs:30-101 | Normalizing twice is normalizing once, with zero renames |
| `History.PrefixStable` | src/history.rs:30-101 | Appending messages that mention no generated id leaves the normalized prefix unchanged |
| `Pairing.RunPairing` | src/history.rs:53-94 | In a turn whose results answer its calls, a result and a call get one wire id exactly when they carried the same id and stand at the same place among those that did |
| `HistoryNormalizer.NormalizeToolCallIds` | src/history.rs:29-102 | The walk computes the normal form and the renamed count |
| `TranscriptPairing.TurnPaired` | src/run.rs:258-365 | What a turn appends keeps every call answered right behind its assistant message |
| `TranscriptPairing.AppendKeeps` | src/run.rs:233-365 | Appending a chunk that does not begin with a result keeps that |
| `Composition.HistoriesPaired` | src/run.rs:179-407 | Every history a run holds or is about to send, with or without the note of a transport recovery behind it, keeps every turn's calls answered right behind it, given that the initial context did, no history was shrunk, message sources hand out neither assistant nor tool messages and the policy keeps ids |
| `Composition.NormalizedHistories` | src/history.rs:29-102 | Normalizing any such history, for a first attempt or a retry, gives globally unique call ids, and in every turn calls and results share wire ids one to one, exactly where they match |
| `Composition.RequestsPaired` | src/history.rs:29-102 | With the normalizer as the context transform, every request of every recorded turn of every run, until a history is shrunk, carries unique call ids and turns whose calls and results are paired one to one |
| `Composition.LastRequestsPaired` | src/history.rs:29-102 | So does every request of the turn in which a failed or waiting run was cut short |
| `Attribution.AttributionExact` | src/exec.rs:172-187 | Every call of a turn shares its wire id with its own result if and only if the cap split put no deferred call before an executed call of the same id |
| `Attribution.RunAttribution` | src/run.rs:332-355 | In every run whose histories were not shrunk, with message sources and a policy as before, each recorded turn stands at its place in the history, and after normalization each of its calls shares its wire id with its own result if and only if the cap split of that turn reversed no two calls of one id |
| `Attribution.NoStraddle` | src/exec.rs:172-224 | Without a cap, or with distinct ids in the batch, that never happens |
| `Attribution.CapCanSwapAnswers` | src/exec.rs:172-224 | A batch of three calls of one id under a cap of one: the second call shares its wire id with the third one's result and not with its own |
| `ThinkingTags.ClassifyExact` | src/thinking_filter.rs:161-177 | A candidate is a whole tag, a proper beginning of one, or neither |
| `ThinkingTags.ClassifyMeans` | src/thinking_filter.rs:38-211 | Letter by letter: a candidate is a whole tag iff, white space and capitals aside, it spells one of the five names in brackets, with the slash when closing; it is still possible iff it spells a beginning of one |
| `ThinkingTags.ClassifyIgnoresTagOrder` | src/thinking_filter.rs:161-177 | The order of the tag table does not matter |
| `ThinkingTags.CanonicalizeTagCandidate` | src/thinking_filter.rs:179-211 | The copying loops compute the canonical text of a candidate |
| `ThinkingFilter.ThinkingTagStreamFilter.Feed` | src/thinking_filter.rs:54-64 | Feeding a delta moves the filter's fields and emits text as the character-by-character specification says |
| `ThinkingFilter.ThinkingTagStreamFilter.Flush` | src/thinking_filter.rs:66-78 | Flushing emits the undecided text iff outside a thought and restores the initial state |
| `ThinkingFilter.Strip` | src/thinking_filter.rs:218-223 | Stripping is filtering, flushing and trimming |
| `Tokenization.ReadIsValid` | src/thinking_filter.rs:54-153 | Every text has a valid reading: visible lexemes, opening tag, hidden lexemes, closing tag, and so on |
| `Tokenization.ReadingIsUnique` | src/thinking_filter.rs:54-153 | No text has another |
| `Tokenization.FilterRefinesReading` | src/thinking_filter.rs:54-153 | The filter's output and fields after any text are those of its reading: output is the visible parts, the thought buffer holds iff inside, pending is the undecided rest |
| `Tokenization.PendingIsTagPrefix` | src/thinking_filter.rs:102-153 | What is pending is empty or a strict prefix of a tag, at most 12 canonical characters long |
| `Tokenization.ChunkingIrrelevant` | src/thinking_filter.rs:54-64 | Any chunking of a text gives the same output and state |
| `Tokenization.StripIsIdempotent` | src/thinking_filter.rs:218-223 | Stripping twice is stripping once: neither removing blocks nor trimming splices a new tag together |
| `Tokenization.DoubledBracketHidesNothing` | src/thinking_filter.rs:102-124 | After a doubled bracket everything up to the next bracket is visible, even the rest of a tag |
| `Utf8.BoundarySplits` | src/tool_result_budget.rs:187-206 | Cutting valid UTF-8 at a character boundary leaves two valid texts (section 3 of RFC 3629) |
| `ToolResultBudget.ExcerptWithinCap` | src/tool_result_budget.rs:187-206 | An excerpt never exceeds the cap, whatever the marker's size |
| `ToolResultBudget.ExcerptKeepsEvidence` | src/tool_result_budget.rs:187-220 | When the marker fits and the text exceeds the cap: head and tail disjoint and on character boundaries, at most three bytes short each, the whole at least cap - 6 |
| `ToolResultBudget.ExcerptIsText` | src/tool_result_budget.rs:187-220 | An excerpt of valid UTF-8 is valid UTF-8 |
| `ToolResultBudget.TransformLaws` | src/tool_result_budget.rs:102-151 | Exactly the older over-cap results without a marker change, only in their text, and then fit; images, ids, names and order are kept; the freshest batch is untouched |
| `Clipping.ClippedExactly` | src/tool_result_budget.rs:78-256 | Message by message: a tool result is clipped iff it does not belong to the last assistant message's calls, its tool is not uncapped, its text blocks exceed the tool's cap or the default in bytes, and none quotes the marker; it is then left with the excerpt of its text and its images |
| `Clipping.ExcerptExactly` | src/tool_result_budget.rs:187-220 | The excerpt: with room beyond the marker and two blank lines, the longest whole-character head within three quarters of it, the marker, and the longest whole-character tail within the rest; otherwise the longest whole-character beginning of the marker |
| `ToolResultBudget.FitsUnlessMarked` | src/tool_result_budget.rs:133-147 | An older result ends within its cap iff it already was or quoted no marker |
| `ToolResultBudget.QuotedMarkerEscapes` | src/tool_result_budget.rs:143-145 | A result that quotes the marker's prefix stays over its cap |
| `ToolResultBudget.Idempotent` | src/tool_result_budget.rs:102-151 | Transforming twice is transforming once |
| `ToolResultBudget.Transform` | src/tool_result_budget.rs:102-151 | The in-place loop computes the transform |
| `TokenBudget.TrimExactly` | src/budget.rs:58-93 | A history within the trigger stays as it is; of any other the tool results that are not the marker already are replaced by it, oldest first, up to the first replacement after which the history fits, or else up to the last two messages |
| `TokenBudget.Idempotent` | src/budget.rs:53-94 | Trimming twice is trimming once, even where a replacement makes the estimate grow |
| `TokenBudget.Transform` | src/budget.rs:53-94 | The loop with its early exit computes the trim |
| `SchemaFlattening.AnnotatedMeans` | src/tool.rs:941-979 | Annotating a merged field with the variants that own it changes neither its key nor what its schema accepts |
| `SchemaFlattening.FlatteningRelaxes` | src/tool.rs:832-1014 | For closed, string-tagged variants that agree on shared fields, every instance valid under the oneOf is valid under the flat schema |
| `SchemaFlattening.FlatMeaning` | src/tool.rs:832-1014 | What a flat schema accepts, exactly: objects that have the discriminator if every variant requires it, with a string that is one of the tags as its value (so a tag that is no string is never accepted), and in which every merged field that is there fits the schema of the first variant that describes it |
| `SchemaFlattening.OpenVariantsCanLose` | src/tool.rs:832-1014 | Two variants that allow other properties, and an instance valid under their oneOf that the flat schema rejects |
| `SchemaFlattening.DiscriminatorFirst` | src/tool.rs:980-1013 | The discriminator is the first property, a string out of the variants' tags, and required iff every variant requires it; nothing else is required |
| `FlatShape.DispatchedExactly` | src/tool.rs:864-907 | A schema is flattened iff it is a non-empty oneOf of objects whose first property pinned by an enum of one has one and the same name |
| `FlatShape.FlatExactly` | src/tool.rs:832-1014 | The flat schema: description and dialect if there, the type, the properties, the tag as only required property iff every variant requires it; the properties are the tag with the variants' values in order, then every other property once, in the order and with the schema of its first mention, and with a note on those that some variant lacks, if all tags are strings |
| `SchemaFlattening.OtherShapes` | src/tool.rs:832-939 | A oneOf array that is not tag-dispatched comes back as the same map; other schemas are unchanged, but for the empty object and a oneOf that is no array |
| `SchemaFlattener.FlattenTaggedOneOfSchema` | src/tool.rs:832-1014 | The program computes the flat schema |
| `SchemaQuirks.RewritePreserves` | src/tool.rs:1032-1053 | The `items: true` rewrite keeps what a schema accepts, for the modelled keywords, at every schema position |
| `SchemaQuirks.EnumValuesAreRewritten` | src/tool.rs:1032-1053 | Inside an enum value it does not: an instance that is lost |
| `SchemaQuirks.EnumKeptExactly` | src/tool.rs:1032-1053 | The rewrite keeps what an enum accepts if and only if it changes none of its values |
| `SchemaQuirks.RewrittenTwice` | src/tool.rs:1032-1053 | Rewriting twice is rewriting once |
| `SchemaQuirks.RewrittenExactly` | src/tool.rs:1032-1053 | Place by place: exactly the values of fields `items: true` become the empty object, at any depth, and nothing else changes |
| `SchemaQuirks.NormalizeStrictValidatorQuirks` | src/tool.rs:1032-1053 | The recursive walk computes the rewrite |
| `ToolSchema.ShownExactly` | src/tool.rs:525-535 | What the provider is shown is the flat schema with the value of every field `items: true`, wherever it stands, made the empty object, and nothing else changed |
| `ToolSchema.ShownRelaxes` | src/tool.rs:525-535 | What the provider is shown, flattened and then rewritten, accepts every instance the declared schema accepts, for closed, string-tagged variants that agree on shared fields and enum and const values the rewrite leaves alone |

## Left out

- Retry delays, sleeps, retry counters and their logging: they do not change what is sent or returned.
- Tokio channels, update dispatchers and drain timeouts; `ToolExecutionUpdate`, whose place among the other events is not determined.
- The events `MessageStart`, `MessageUpdate`, `MessageEnd`, `ToolGateApplied` and `ToolGateConflictResolved`, and `ContextTransformApplied` for the registered transforms (overflow recovery's is the model's `HistoryRecovered`); "exactly" and "only" are said of the modelled events.
- Timestamps, usage blocks, narration, identities of messages, and the prose of errors, nudges and markers; the length limit of the marker text is part of its prose.
- Plugin selection: builders, capability checks and observers in `src/config.rs` and `src/plugin.rs`, and the thin gate in `src/plugins/opening_gate.rs`; their hooks are parameters.
- Tool argument coercion, null stripping and self-correction hints in `src/tool.rs`: per-field case splits.
- Floating-point JSON numbers, and the f32 arithmetic that turns a token budget into its trigger, which is given as a number.
- `src/reasoning.rs`, `src/trajectory.rs`, `src/event.rs` and `src/tool_identity.rs`: case splits and counters over the event log that follow from the event grammar.
- FlatteningRelaxes: is stated for closed variants that agree on shared fields, because the flat schema holds a field to the first description it finds: `OpenVariantsCanLose` is an instance it then loses, and `FlatMeaning` says for any variants what it accepts.
- RewritePreserves: is stated for schemas whose enum and const values the rewrite does not touch, because `EnumValuesAreRewritten` shows that it fails without that; `EnumKeptExactly` gives the exact condition for one enum.
- JSON Schema keywords other than type, enum, const, items, required, properties, additionalProperties, allOf, anyOf, oneOf and not: ranges, patterns, references and the rest do not constrain in this model.
- HistoriesPaired: is stated for runs in which no history was shrunk, because the recovery hook may return any history at all.
- RunAttribution: is stated for runs in which no history was shrunk, for the same reason.
- RequestsPaired: is stated for turns before which no history was shrunk, for the same reason.
- ShownRelaxes: see FlatteningRelaxes and RewritePreserves for what it asks of the variants and of enum values.
- RecoveryEvents: is a statement about the modelled events; see the events above.
- StreamAssistantResponse: announces the request and not what transforms and gates report about themselves.
- NormalizeToolCallIds: the suffix counter is unbounded, while the program's would wrap after 2^64 candidates.
