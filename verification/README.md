# A verified model of copilot-api

`copilot-api` serves the OpenAI Chat Completions and Responses APIs in front of the
GitHub Copilot SDK. Behind its HTTP plumbing it runs several protocols whose
guarantees no single function shows. These Dafny modules model those protocols as
the Go code runs them, and prove their guarantees for all inputs and all
interleavings. `dafny verify dfyconfig.toml` checks everything.

| file | about |
|---|---|
| RetentionStore.dfy | the response store, its link index, pins, tombstones and per-path removal, crash point by crash point |
| PrunePlan.dfy | the prune planner: three quotas over one sorted list |
| HeaderDecode.dfy | reading a record's header without the record |
| ToolBatch.dfy | one batch of parked tool calls: complete, expire, cancel |
| ToolBroker.dfy | the broker that leads outputs to batches, against closing and shutdown |
| ToolRequests.dfy | one identity for a call that is streamed, invoked and captured |
| SchemaBounds.dfy | the rewrite of boolean exclusive bounds |
| OutputOrder.dfy | the runner's item ids, announcements and final order |
| ResponseStream.dfy | a client's view of a Responses stream, and the writer that satisfies it |
| StreamAgreement.dfy | runner and writer together: every index is a position |
| StreamReconcile.dfy, ChatStream.dfy | completing streamed fragments, and the Chat stream |
| ToolCatalog.dfy | catalog validity, merge, key and stored form |
| Ownership.dfy | who owns a connected SDK session and every retention pin, against Stop |
| SessionEvents.dfy | the event sink between SDK and runner |
| WarmInput.dfy | buffered input of warm responses, across crashes |
| ResponseHistory.dfy, Hydration.dfy | a chain of records rebuilt into a session |
| Common.dfy | what several components share |

Where the Go code updates objects, a class updates the same fields in loops and lock
sections, and each method is proved equal to a step of a specification on values; runs
are sequences of steps, and the theorems are about all runs. Protocols take one lock
section, file action or channel operation as a step, in any order.

## What the proofs assume

- Fresh ids never repeat.
- Every session named by a save has been pinned continuously since its directory
  existed; `Ensure` has run, and nothing outside the store removes the link index while
  the server runs or deletes session directories.
- File names derived from ids differ when the ids do.
- A file action is atomic and either takes effect or not, failing or not; reads succeed,
  stored records decode, and the responses directory exists.
- A crash loses memory only.
- Streams: the writer does not fail; the items of a terminal response have distinct ids;
  an id that is not empty tells its item's type, as the prefixes given to ids do. That
  each item keeps its id from event to event is not assumed: it is proved of the runner
  (`TurnIsStable`).

## What the proofs found

- The schema rewrite is not idempotent in general; `SchemaSettles` says exactly when it is.
- Saving while the link index is missing creates a partial index;
  `SaveWithoutIndexRoot` says exactly when that index is complete.
- A completed batch brings back one handler for each call it covered. A second handler of
  the same call waits for ever (`SecondHandlerIsStranded`), and so does the handler of a
  call added after the completion (`CallAddedAfterCompletionIsStranded`);
  `HandlerReturnsExactlyIf` is the exact condition. A handler that arrives after its batch
  has closed opens another one (`HandlerJoinsPublishedCallExactlyIf`).
- A batch that closes in mid-turn splits the identity of a streamed call exactly if it
  held the call, an SDK invocation having taken the reservation
  (`ClosingKeepsIdentityExactlyIf`, with `ClosingMidTurnSplitsIdentity` as the example);
  without that it never splits.
- The broker can keep a batch that is already closed (`ClosedBatchMayStay`), which is why
  lookups check again.
- The Responses writer does not itself hold on to ids: a message renamed midway leaves a
  stream no client can read (`RenamedMessageIsUnstable`, `OnUnstable`).
  `WriteResponseStreamEvents` says exactly when that happens, and `StreamTurn` that the
  runner never makes it happen.
- The early header decode matches names exactly while the full decode ignores case:
  `AgreesExactlyIf` says when they agree, `RespelledTombstoneIsOverlooked` shows a record
  where they do not. Records the store writes are always read alike.
- A warm session on top of a full chain carries one record more than a resume would
  collect, since each applies the limit of 20 to the run behind it
  (`WarmSessionIsAResumeExactlyIf`).
- A streamed Chat tool call keeps the name of its first fragment: the turn's own name for
  it is not compared (`StreamChatEvents`).
- A buffered input more than 20 records behind the newest is not reached once the newer
  ones are settled (`ClaimsBehindTheLimitAreLeft`).
- Delivery of buffered input is at least once: `CrashAfterSendRepeats`.
- The summary of a call that cannot be replayed leaves out arguments stored only as JSON
  (`SummaryTellsTheCallExactlyIf`), and a tool search's name.
- A replayed tool request stays unanswered exactly if no later record holds its output
  (`RequestIsAnsweredExactlyIf`); the comment above `responseContinuationHistory`
  promises that no request stays open, and `OutputStoredWithItsCallAnswersNothing` shows
  a chain where one does.

## Model

| member | source | states |
|---|---|---|
| `RetentionStore.SafeActionsKeepDurable` | internal/sessionstore/store.go:110-151 | each safe file action leaves every live record linked, once the index exists; so every crash point of every section is a disk where links can only be too many |
| `RetentionStore.UnlinkedIsUnreferenced` | internal/sessionstore/retention.go:605-645 | once the index exists, a session without links is named by no live record |
| `RetentionStore.SaveWithoutIndexRoot` | internal/sessionstore/store.go:385-406 | a save while the index directory is missing leaves a complete index exactly if no other live record names a session |
| `RetentionStore.StageIndex` | internal/sessionstore/store.go:124-146 | the staged index holds a link for each live record that names a session, and no other link |
| `RetentionStore.RetryDelay` | internal/sessionstore/retention.go:435-444 | the backoff stays between its base and its ceiling |
| `RetentionStore.RetryDelayGrows` | internal/sessionstore/retention.go:435-444 | more failures never bring the retry forward |
| `RetentionStore.RetryDelayDoubles` | internal/sessionstore/retention.go:435-444 | 60 seconds after the first failure, doubling with each one to an hour |
| `RetentionStore.Store.Perform` | internal/sessionstore/store.go:385-406 | a file action takes effect or not, keeps the store invariant, and its disk joins the crash points |
| `RetentionStore.Store.RemoveLinkLocked` | internal/sessionstore/store.go:251-264 | drops a link only if its record is gone, deleted or names another session |
| `RetentionStore.Store.EnsureRetentionLinksLocked` | internal/sessionstore/store.go:110-151 | publishes a complete index, exactly the links the live records name, unless an action fails, and then leaves none; never touches records or sessions; an existing index stays as it is |
| `RetentionStore.Store.LiveSessionRefsLocked` | internal/sessionstore/retention.go:605-645 | drops only dead links, all of them unless an action fails, and then counts the live ones; a zero count means no link is left; a session some record file is linked to counts more than zero; without an index the count is unknown |
| `RetentionStore.Store.RemoveSessionLinks` | internal/sessionstore/retention.go:588-590 | removes the link directory of a session nobody names, all of it unless an action fails, at any crash point |
| `RetentionStore.Store.CleanupSessionIfUnreferencedLocked` | internal/sessionstore/retention.go:555-593 | a session directory goes, with its links, exactly if it is unpinned and named by no live record, unless an action fails; a pinned one is remembered as an orphan |
| `RetentionStore.Store.Pin` | internal/sessionstore/retention.go:96-108 | counts the pin and holds the session from now on if its directory exists |
| `RetentionStore.Store.Unpin` | internal/sessionstore/retention.go:108-120 | gives one pin back; the last one stops holding the session, forgets a remembered deletion and cleans up an orphan |
| `RetentionStore.Store.SessionCreated` | internal/sessionstore/retention.go:558-572 | session directories appear at any time without the mutex and break nothing |
| `RetentionStore.Store.SaveResponse` | internal/sessionstore/store.go:355-411 | refuses exactly a known or stored tombstone; writes the link before the record; succeeds exactly if no action fails, and then the record is replaced and the old link gone; a failure leaves the old record or the new one |
| `RetentionStore.Store.ClearInputPending` | internal/sessionstore/store.go:425-443 | rewrites one live record in place exactly if its claim stands, links and sessions untouched; fails exactly if the action does |
| `RetentionStore.Store.DeleteResponse` | internal/sessionstore/store.go:467-497 | reports not found exactly for no live record; otherwise, unless an action fails, leaves a tombstone, which a pin keeps buried, and removes the session exactly if it is unreferenced and unpinned |
| `RetentionStore.Store.DeferPruneLocked` | internal/sessionstore/retention.go:435-444 | one more failure and a retry time within the bounds |
| `RetentionStore.Store.RemoveRetainedLocked` | internal/sessionstore/retention.go:380-433 | whatever the stale scan said: unless an action fails, the target is removed exactly if it is unpinned, unchanged since, and, a session, named by no live record; with its link, its backoff forgotten; a removal that fails counts one failure more; nothing else is touched |
| `RetentionStore.Store.ApplyPrune` | internal/sessionstore/retention.go:342-375 | removes what a plan lists, target by target: unless an action fails everything collectable is gone afterwards; what is reported is gone in any case |
| `RetentionStore.Store.Restart` | internal/sessionstore/retention.go:96-120 | a crash keeps the disk and forgets pins and remembered deletions; the invariant holds from there |
| `RetentionStore.Store.ExecuteOne` | internal/sessionstore/retention.go:342-433 | one lock section of any caller keeps the invariant |
| `RetentionStore.Store.Execute` | internal/sessionstore/retention.go:342-433 | any interleaving of pin, unpin, save, delete, link rebuild, prune removal, session creation and restart: every live record keeps its session while callers keep their part, every crash point keeps every link, the pins on a response are those taken less those given back, and a deleted response stays deleted as long as one pin on it is left |
| `PrunePlan.ReadLinks` | internal/sessionstore/retention.go:451-553 | every link counts as a reference, so counts are never below the number of responses mapped to a session |
| `PrunePlan.SortEntriesSorts` | internal/sessionstore/retention.go:208-214 | the list is sorted oldest first and a permutation of what was scanned |
| `PrunePlan.Planner.SelectEntry` | internal/sessionstore/retention.go:249-274 | selects exactly an unpinned, unselected, unquarantined entry; reports the bytes freed, cascade included; running sums stay exact |
| `PrunePlan.Planner.SelectExpired` | internal/sessionstore/retention.go:276-283 | everything selectable and older than the cutoff is selected, and nothing younger first |
| `PrunePlan.Planner.TakeEntry` | internal/sessionstore/retention.go:249-274 | takes one entry a quota or the age limit needs, and by its last response the session it alone kept; the choice stays minimal |
| `PrunePlan.Planner.TrimResponses` | internal/sessionstore/retention.go:284-302 | the response quota is met or nothing selectable is left, and each entry is chosen only while the quota is exceeded without it |
| `PrunePlan.Planner.TrimBytes` | internal/sessionstore/retention.go:303-321 | fixed bytes plus unselected bytes meet the byte quota or nothing selectable is left, and each entry is chosen only while they do not |
| `PrunePlan.Planner.BuildPlan` | internal/sessionstore/retention.go:323-339 | all chosen sessions behind all other chosen paths |
| `PrunePlan.MarkEntries` | internal/sessionstore/retention.go:216-235 | pins are re-read at planning time; the index names exactly the scanned sessions |
| `PrunePlan.PlanListsChosen` | internal/sessionstore/retention.go:323-339 | the plan lists exactly the chosen entries, sessions last |
| `PrunePlan.Choose` | internal/sessionstore/retention.go:247-339 | the chosen set respects pins and quarantine, justifies each session by its full link count, cascades completely, takes the oldest first, meets the quotas, and is minimal: one by one, each entry was expired, or a quota was exceeded by what was not chosen before it, or it is a session whose last response had just been chosen |
| `PrunePlan.NothingDueNothingPicked` | internal/sessionstore/retention.go:247-321 | nothing expired, both quotas met or off, no session to go by itself: nothing is chosen |
| `PrunePlan.PlanPrune` | internal/sessionstore/retention.go:204-340 | the same for any scan, policy, pins and deferred paths, with an empty plan if nothing is due; nothing pinned or deferred is planned, no session without the index; deferred paths no longer on disk are forgotten |
| `PrunePlan.NoIndexNoSession` | internal/sessionstore/retention.go:258-272 | without the link index no session is chosen |
| `HeaderDecode.DecodeResponseHeader` | internal/sessionstore/store.go:577-652 | the early-stopping token loop computes the decode specified field by field |
| `HeaderDecode.ScanGathers` | internal/sessionstore/store.go:577-652 | wherever the scan stops, each field has the value its exactly named member gives it |
| `HeaderDecode.ScanStops` | internal/sessionstore/store.go:577-652 | the scan stops early exactly if all four fields are there |
| `HeaderDecode.ReadAlike` | internal/sessionstore/store.go:577-652 | a field is read alike by both decodes exactly if its respelled member is not overlooked |
| `HeaderDecode.AgreesExactlyIf` | internal/sessionstore/store.go:552-652 | for every complete record without repeated fields, early header and full decode agree exactly if no wanted field is spelled only in another case |
| `HeaderDecode.BrokenRecordIsReadExactlyIf` | internal/sessionstore/store.go:552-652 | a broken-off record yields a header exactly if all four fields came before the break |
| `HeaderDecode.RespelledTombstoneIsOverlooked` | internal/sessionstore/store.go:577-652 | a tombstone whose flag is spelled in another case reads as live |
| `HeaderDecode.TornRecordNeverLies` | internal/sessionstore/store.go:552-666 | a record the store wrote, torn anywhere, gives its own header or an error |
| `HeaderDecode.WrittenRecordDecodes` | internal/sessionstore/store.go:682-701 | the full decode of a record the store wrote finds the same header |
| `HeaderDecode.TombstoneIsNeverReplaced` | internal/sessionstore/store.go:367-384 | no save replaces a tombstone the store wrote, torn anywhere |
| `HeaderDecode.LiveRecordIsReplaced` | internal/sessionstore/store.go:367-384 | a save over a written live record proceeds, knowing its old session, exactly if its version is 3, or 0 to 2 with an id |
| `ToolBatch.InvStep` | internal/toolproxy/toolproxy.go:1251-1435 | every lock section, settlement, context cancellation and return of a handler keeps the batch invariant |
| `ToolBatch.InvRun` | internal/toolproxy/toolproxy.go:1251-1435 | so does every interleaving of handlers coming, waiting and going, completion, expiry and shutdown |
| `ToolBatch.NeverCompletedAndExpired` | internal/toolproxy/toolproxy.go:1324-1435 | no run completes and expires the same batch |
| `ToolBatch.CompletionNeedsExactOutputs` | internal/toolproxy/toolproxy.go:1383-1419 | completion succeeds exactly on an unexpired batch with outputs for exactly its calls, each of no kind or the kind of its call, and for a custom call of no name or its public name |
| `Common.SubsetSize` | internal/toolproxy/toolproxy.go:1401-1411 | counting the outputs and looking each up suffices for exactness: a subset as large as the whole is the whole |
| `ToolBatch.SettledForever` | internal/toolproxy/toolproxy.go:1500-1512 | a call's output or error, once given, never changes |
| `ToolBatch.NewCallIsOfItsKind` | internal/toolproxy/toolproxy.go:1251-1292 | a new call has the kind and name it was asked for, in whatever run follows |
| `ToolBatch.EveryDecidedCallIsSettled` | internal/toolproxy/toolproxy.go:1336-1358 | after the closer or completer is done every call it found has its one output or the one error |
| `ToolBatch.DecisionIsFinal` | internal/toolproxy/toolproxy.go:1324-1435 | after closing, outcome, outputs and covered calls no longer change |
| `ToolBatch.LateHandlerJoinsItsCall` | internal/toolproxy/toolproxy.go:1251-1292 | a later handler for a published model id gets that very call |
| `ToolBatch.WorkFinishes` | internal/toolproxy/toolproxy.go:1336-1358 | the closer or completer, left alone, settles everything |
| `ToolBatch.OpenBatchHoldsEveryHandler` | internal/toolproxy/toolproxy.go:1500-1509 | while the batch is open no handler comes back |
| `ToolBatch.HandlerKeepsItsCall` | internal/toolproxy/toolproxy.go:1053-1062 | over every run a handler waits on the call it found or minted until it comes back from that very call, once |
| `ToolBatch.EachValueReturnsOnce` | internal/toolproxy/toolproxy.go:1500-1512 | over every run a handler back with a value has what its own call was settled with, in a completed batch the output the client gave, and no other handler is back with that value; back without one it is only after an expiry |
| `ToolBatch.HandlerReturnsExactlyIf` | internal/toolproxy/toolproxy.go:1251-1512 | a handler waiting in a decided batch can come back in some continuation exactly if the batch expired, or its call was covered by the decision and no other handler has taken its value: one return for each call of a completed batch |
| `ToolBatch.ExpiryReleasesEveryHandler` | internal/toolproxy/toolproxy.go:1336-1358 | once the closer of an expired batch is done, every handler can come back at any time |
| `ToolBatch.HandlerBehindTheFirstIsStranded` | internal/toolproxy/toolproxy.go:1266-1276 | a handler that joins a call of a completed batch behind the one that took its value waits for ever |
| `ToolBatch.SecondHandlerIsStranded` | internal/toolproxy/toolproxy.go:577-590 | such a run: a model id that comes round again in the same batch |
| `ToolBatch.CallAddedAfterCompletionIsStranded` | internal/toolproxy/toolproxy.go:1251-1292 | a handler whose call was added to an already completed batch waits for ever |
| `ToolBatch.SecondCallArrivesTooLate` | internal/toolproxy/toolproxy.go:1032-1062 | such a run: a batch with one call is completed with its output, and the handler of a second call, past the open check before that, waits for ever |
| `ToolBatch.PendingBatch.EnsureCall` | internal/toolproxy/toolproxy.go:1251-1292 | finds or mints the call for a model id |
| `ToolBatch.PendingBatch.HandleInvocation` | internal/toolproxy/toolproxy.go:1032-1056 | a handler finds or mints its call and begins to wait on it |
| `ToolBatch.PendingBatch.Wait` | internal/toolproxy/toolproxy.go:1500-1509 | a handler that can go on takes its call's value out of the channel, or sees the context done |
| `ToolBatch.PendingBatch.CloseBatch` | internal/toolproxy/toolproxy.go:1324-1358 | the closing section, a no-op on a decided batch |
| `ToolBatch.PendingBatch.FailCall` | internal/toolproxy/toolproxy.go:1349-1355 | fails one call unless it is settled |
| `ToolBatch.PendingBatch.CompleteToolOutputs` | internal/toolproxy/toolproxy.go:1383-1435 | completes exactly an open batch whose outputs fit; a late completion expires it; otherwise says why not |
| `ToolBatch.PendingBatch.DeliverCall` | internal/toolproxy/toolproxy.go:1420-1432 | delivers one output unless the call is settled |
| `ToolBroker.InvStep` | internal/toolproxy/toolproxy.go:375-490 | every lock section of registrations, the open check and the listing of calls included, of removals, closings and the shutdown keeps the broker invariant |
| `ToolBroker.InvRun` | internal/toolproxy/toolproxy.go:375-490 | so does every interleaving |
| `ToolBroker.ShutdownClosesEveryBatch` | internal/toolproxy/toolproxy.go:474-490 | after a shutdown, its cancellations and those of the registrations it overtook, every batch ever brought to the broker is closed |
| `ToolBroker.OpenBatchIsFound` | internal/toolproxy/toolproxy.go:375-457 | until then an open batch is found by every call it was registered with, and no id leads to the batch of another call |
| `ToolBroker.ClosedBatchMayStay` | internal/toolproxy/toolproxy.go:375-399 | a batch that closes and is removed between the sections of a registration stays in the tables, closed |
| `ToolBroker.CallBroker.Register` | internal/toolproxy/toolproxy.go:388-398 | enters the batch under its calls, or refuses after the shutdown |
| `ToolBroker.CallBroker.Remove` | internal/toolproxy/toolproxy.go:459-472 | drops the entries that still lead to the batch, and no others |
| `ToolBroker.CallBroker.CancelAll` | internal/toolproxy/toolproxy.go:474-490 | closes and empties, returning what was registered |
| `ToolBroker.CallBroker.FindByCallIDs` | internal/toolproxy/toolproxy.go:401-457 | finds a batch exactly if ids whose batches are open when asked lead to it and to no other, and all do where all are required |
| `ToolRequests.InvRun` | internal/toolproxy/toolproxy.go:562-643 | ids stay distinct and reservations consistent in every order of fragments, invocations and captures |
| `ToolRequests.CaptureAllKeepsIdentity` | internal/toolproxy/toolproxy.go:996-1027 | capturing gives each request the id its model id was streamed under |
| `ToolRequests.StreamedIdIsCapturedId` | internal/toolproxy/toolproxy.go:562-1027 | over every turn the id streamed for a model id is the id of the captured call, and no reservation outlives the capture |
| `ToolRequests.InvocationJoinsStreamedCall` | internal/toolproxy/toolproxy.go:1032-1062 | an SDK invocation waits on the call whose id was streamed |
| `ToolRequests.OnlyPlainFunctionsAreReserved` | internal/toolproxy/toolproxy.go:562-616 | a fragment is reserved exactly for a known, non-strict plain function with ids, not yet published by the open batch |
| `ToolRequests.CaptureFailsExactlyIf` | internal/toolproxy/toolproxy.go:996-1016 | a capture fails exactly if a request names an unknown tool, or a strict one with arguments that do not conform |
| `ToolRequests.ReservationConsumedOnce` | internal/toolproxy/toolproxy.go:622-643 | a reservation becomes one call only |
| `ToolRequests.CancelReleasesReservations` | internal/toolproxy/toolproxy.go:954-964 | cancelling leaves no reservation |
| `ToolRequests.HandlerJoinsPublishedCallExactlyIf` | internal/toolproxy/toolproxy.go:1032-1062 | a handler for a published call joins it exactly if the batch is still open when it arrives |
| `ToolRequests.ClosingKeepsIdentityExactlyIf` | internal/toolproxy/toolproxy.go:562-1062 | in a turn in which batches close at any moments and any number of times, a model id streamed before is captured under its streamed id exactly if no batch closed while it held the call of that id |
| `ToolRequests.ClosingMidTurnSplitsIdentity` | internal/toolproxy/toolproxy.go:996-1062 | a turn in which one does, and the captured call differs from the streamed one |
| `ToolRequests.StreamedItemIsTerminalItem` | internal/copilotgw/turn_runner.go:1364-1373 | streamed and captured call share their output item exactly if the request is not typed custom |
| `ToolRequests.RequestTools.ReserveStreamingCall` | internal/toolproxy/toolproxy.go:562-616 | reserves as specified |
| `ToolRequests.RequestTools.EnsureBatchCall` | internal/toolproxy/toolproxy.go:1251-1292 | finds or mints a call, consuming its reservation only when minting |
| `ToolRequests.RequestTools.OpenBatch` | internal/toolproxy/toolproxy.go:1005-1019 | keeps an open batch, opens a new one otherwise |
| `ToolRequests.RequestTools.HandleInvocation` | internal/toolproxy/toolproxy.go:1032-1062 | joins or opens a batch, then finds or mints the call |
| `ToolRequests.RequestTools.CaptureRequests` | internal/toolproxy/toolproxy.go:996-1027 | gives every request its call, or fails as a whole, and drops all reservations |
| `ToolRequests.RequestTools.Cancel` | internal/toolproxy/toolproxy.go:954-964 | closes the batch and drops all reservations |
| `SchemaBounds.ObjectFlag` | internal/toolproxy/toolproxy.go:199-259 | an object reports a change exactly if there is one |
| `SchemaBounds.SchemaFlag` | internal/toolproxy/toolproxy.go:199-274 | so does every schema |
| `SchemaBounds.OtherKeywordsUntouched` | internal/toolproxy/toolproxy.go:199-259 | keywords that are neither bounds nor hold schemas keep their value |
| `SchemaBounds.ValuesAreNotKeywords` | internal/toolproxy/toolproxy.go:144-198 | default, const, enum and examples are such keywords |
| `SchemaBounds.KeywordsAreTheDrafts` | internal/toolproxy/toolproxy.go:151-173 | the rewrite descends through exactly the keywords under which Draft-04 or Draft 2020-12 holds schemas, keyword by keyword |
| `SchemaBounds.ChangedExactlyIfFlagged` | internal/toolproxy/toolproxy.go:199-274 | the rewrite changes a schema exactly if a boolean exclusive bound stands at one of its schema positions |
| `SchemaBounds.FlagIsLeftExactlyIf` | internal/toolproxy/toolproxy.go:199-274 | a boolean exclusive bound is left at a position exactly where a true flag stood over a boolean bound |
| `SchemaBounds.SettledLeavesNoFlag` | internal/toolproxy/toolproxy.go:199-274 | the rewrite of a settled schema, and of no other, has no boolean exclusive bound at any schema position |
| `SchemaBounds.SkeletonTranslates` | internal/toolproxy/toolproxy.go:199-274 | with bounds and subschemas blanked out, wherever the drafts hold any, original and rewrite are the same |
| `SchemaBounds.LimitsTranslate` | internal/toolproxy/toolproxy.go:199-274 | the rewrite read under Draft 2020-12 (sections 6.2.2-6.2.5 of JSON Schema Validation) bounds like the original read under Draft-04 (sections 5.1.2-5.1.3) |
| `SchemaBounds.ChildTranslates` | internal/toolproxy/toolproxy.go:199-274 | at every position where Draft-04 or Draft 2020-12 holds a subschema, the rewrite has the rewrite of the original's |
| `SchemaBounds.PathTranslates` | internal/toolproxy/toolproxy.go:199-274 | a schema path leads to the rewrite of where it led before |
| `SchemaBounds.RewritePreservesMeaning` | internal/toolproxy/toolproxy.go:199-274 | for every evaluator over the positions of the drafts, every schema and instance: reading the original with flags and reading the rewrite without them give the same |
| `SchemaBounds.ValidatorIsCompositional` | internal/toolproxy/toolproxy.go:98-142 | a validator with combinators, containers and references is such an evaluator |
| `SchemaBounds.SameInstancesAreValid` | internal/toolproxy/toolproxy.go:98-123 | an instance is valid for the original exactly if it is for the rewrite |
| `SchemaBounds.SchemaSettles` | internal/toolproxy/toolproxy.go:199-274 | rewriting twice equals rewriting once exactly for settled schemas: no true flag stands over a boolean bound |
| `SchemaBounds.RewritingTwiceCanDiffer` | internal/toolproxy/toolproxy.go:199-259 | {"minimum":true,"exclusiveMinimum":true} is not settled |
| `ResponseItems.FirstSightGrows` | internal/httpapi/responses_stream.go:30-40 | one more event appends at most its own id to the order of first sight |
| `ResponseItems.FirstSightDistinct` | internal/httpapi/responses_stream.go:30-40 | no id is seen first twice |
| `OutputOrder.ArrangedIsPermutation` | internal/copilotgw/turn_runner.go:1329-1350 | ordering loses, adds and repeats no item |
| `OutputOrder.ArrangedIds` | internal/copilotgw/turn_runner.go:1329-1350 | announced items first and in their order, the others behind in theirs |
| `OutputOrder.ArrangedDistinct` | internal/copilotgw/turn_runner.go:1329-1350 | ordering keeps ids distinct |
| `OutputOrder.MarkingExtracts` | internal/copilotgw/turn_runner.go:1329-1350 | marking the first untaken match is taking it out |
| `OutputOrder.ShortListsStay` | internal/copilotgw/turn_runner.go:1329-1332 | the early return for short lists changes nothing |
| `OutputOrder.OrderOutputItems` | internal/copilotgw/turn_runner.go:1329-1350 | the nested loops compute the specified order |
| `OutputOrder.AppendUntaken` | internal/copilotgw/turn_runner.go:1343-1349 | what no announcement took follows in its old order |
| `OutputOrder.InvRun` | internal/copilotgw/turn_runner.go:345-399 | over every run of one turn, announced order is the order of first sight and names are stable |
| `OutputOrder.StreamedItemsAreInTheResponse` | internal/copilotgw/turn_runner.go:1262-1301 | a streamed message or reasoning is in the response under the id it was streamed with |
| `OutputOrder.TheResponseHoldsTheTurn` | internal/copilotgw/turn_runner.go:1262-1301 | the response holds each captured call once, one message with the text if there is any, or no call, or a streamed message, the reasoning once if there is any, and nothing else |
| `OutputOrder.EveryFragmentIsSent` | internal/copilotgw/turn_runner.go:935-1033 | once a stream is attached the events sent carry every fragment handed over, in order |
| `OutputOrder.ReasoningIsGathered` | internal/copilotgw/turn_runner.go:860-1033 | without a consolidated text the reasoning is its fragments; a consolidated text stays |
| `OutputOrder.LastConsolidatedCounts` | internal/copilotgw/turn_runner.go:860-933 | the last consolidated text is the reasoning |
| `OutputOrder.AnnouncedItemsAreTheTurns` | internal/copilotgw/turn_runner.go:360-399 | the only message and reasoning announced are the turn's |
| `OutputOrder.TurnRunner.AttachResponseStream` | internal/copilotgw/turn_runner.go:329-337 | starts a stream in the specified state |
| `OutputOrder.TurnRunner.Reset` | internal/copilotgw/turn_runner.go:348-358 | a boundary forgets ids, order and texts |
| `OutputOrder.TurnRunner.AnnounceItem` | internal/copilotgw/turn_runner.go:360-371 | an id joins the order once |
| `OutputOrder.TurnRunner.EmitDelta` | internal/copilotgw/turn_runner.go:935-947 | names the message before its first fragment |
| `OutputOrder.TurnRunner.EmitReasoningDelta` | internal/copilotgw/turn_runner.go:1018-1033 | names the reasoning item before its first fragment |
| `OutputOrder.TurnRunner.EmitToolCallDelta` | internal/copilotgw/turn_runner.go:1005-1016 | announces the call's item before its first fragment |
| `OutputOrder.TurnRunner.AddConsolidated` | internal/copilotgw/turn_runner.go:860-933 | consolidated reasoning settles text and id |
| `OutputOrder.TurnRunner.BuildResponse` | internal/copilotgw/turn_runner.go:1262-1301 | the response has the items of the turn, ordered |
| `ResponseClient.Phases` | internal/httpapi/responses_stream.go:65-81 | an accepted stream is created, in_progress, events, one terminal event last, numbered by position |
| `ResponseClient.ObservedSound` | internal/httpapi/responses_stream.go:115-569 | what a client holds of an item is what the accepted frames told it |
| `ResponseClient.EveryEventIsInPlace` | internal/httpapi/responses_stream.go:30-40 | every accepted event names its item with its position in the order of appearance |
| `ResponseClient.ItemHistory` | internal/httpapi/responses_stream.go:725-770 | an item was added once before anything else was said of it |
| `ResponseClient.EveryItemIsBracketed` | internal/httpapi/responses_stream.go:725-770 | in a well-formed stream each item added is done exactly once, later, at the same index |
| `ResponseClient.ClientGathers` | internal/httpapi/responses_stream.go:394-479 | the texts a client holds are what the fragments in the frames add up to |
| `ResponseClient.DoneEventsTellTheWhole` | internal/httpapi/responses_stream.go:162-174 | every done event of a content or summary part tells all the fragments of that part |
| `ResponseClient.ArgumentsAreSaidOnce` | internal/httpapi/responses_stream.go:743-752 | arguments said to be whole are said once, and their item is done with them |
| `ResponseStream.IndexOf` | internal/httpapi/responses_stream.go:30-40 | the first index of an id, appended if new |
| `ResponseStream.TerminalOutputItem` | internal/httpapi/responses_stream.go:598-616 | finds the item, and fails exactly if its type reappears under another id only |
| `ResponseStream.FinalReasoningItem` | internal/httpapi/responses_stream.go:618-632 | the first reasoning item of the response |
| `ResponseStream.FilterResponseReasoning` | internal/httpapi/responses_stream.go:634-646 | suppression removes exactly the reasoning items |
| `ResponseStream.StreamWriter.Write` | internal/httpapi/response_stream_encoder.go:21-34 | numbers the frame with its position; the client accepts it |
| `ResponseStream.StreamWriter.EmitReasoningStart` | internal/httpapi/responses_stream.go:147-161 | opens the reasoning item at its index |
| `ResponseStream.StreamWriter.CloseReasoningSummary` | internal/httpapi/responses_stream.go:162-174 | closes an open summary part once, with the whole reasoning so far |
| `ResponseStream.StreamWriter.FinishReasoningItem` | internal/httpapi/responses_stream.go:175-198 | closes a streamed reasoning item once, final or partial |
| `ResponseStream.StreamWriter.ReconcileStreamedReasoning` | internal/httpapi/responses_stream.go:206-261 | sends what the terminal reasoning adds; fails exactly if it does not extend the streamed one, or breaks the limit |
| `ResponseStream.StreamWriter.ReconcileUnstreamedReasoning` | internal/httpapi/responses_stream.go:267-305 | announces reasoning only the response has |
| `ResponseStream.StreamWriter.OnReasoningDelta` | internal/httpapi/responses_stream.go:394-416 | forwards a fragment; refuses it, with everything closed, exactly if it has no id or breaks the byte limit |
| `ResponseStream.StreamWriter.OnMessageDelta` | internal/httpapi/responses_stream.go:417-447 | the same for message text |
| `ResponseStream.StreamWriter.OnToolCallDelta` | internal/httpapi/responses_stream.go:448-479 | the same for call arguments, also refused without an item |
| `ResponseStream.StreamWriter.FinishIncompleteOutput` | internal/httpapi/responses_stream.go:306-339 | closes every open item |
| `ResponseStream.StreamWriter.IncompleteResponseOutput` | internal/httpapi/responses_stream.go:343-365 | the partial items in index order, with the text gathered |
| `ResponseStream.StreamWriter.WriteFailure` | internal/httpapi/responses_stream.go:366-375 | closes everything and ends the stream with one failure that shows messages and calls as they were closed |
| `ResponseStream.StreamWriter.ReconcileStreamedToolCalls` | internal/httpapi/responses_stream.go:700-717 | finds every streamed call in the response and what it is still owed; fails exactly if one is missing or contradicted |
| `ResponseStream.StreamWriter.FinishStreamedMessage` | internal/httpapi/responses_stream.go:512-553 | completes the streamed message so that the client holds its terminal text; fails exactly if that does not extend the streamed text |
| `ResponseStream.StreamWriter.WriteUnstreamedMessages` | internal/httpapi/responses_stream.go:648-689 | announces messages none of which was streamed |
| `ResponseStream.StreamWriter.WriteResponseOutputEvents` | internal/httpapi/responses_stream.go:725-770 | closes streamed calls and announces the others in response order, each done with the arguments said to be whole |
| `ResponseStream.StreamWriter.OnResponse` | internal/httpapi/responses_stream.go:480-563 | a terminal response is delivered completely exactly if it extends everything streamed and is within the limit; otherwise everything is closed and the stream fails |
| `ResponseStream.StreamWriter.OnEvent` | internal/httpapi/responses_stream.go:376-569 | any other event that keeps to the ids announced is taken, or ends the stream with one failure, exactly as specified |
| `ResponseStream.StreamWriter.OnUnstable` | internal/httpapi/responses_stream.go:394-479 | a fragment under an id other than the one announced is written all the same, and the client refuses it |
| `ResponseStream.StreamWriter.Bounded` | internal/httpapi/responses_stream.go:394-479 | the fragments in all frames written together keep the byte limit |
| `ResponseClient.RefusedForGood` | internal/httpapi/responses_stream.go:115-569 | no later frame repairs a stream with a frame refused |
| `ResponseStream.RenamedMessageIsUnstable` | internal/httpapi/responses_stream.go:417-447 | two fragments of a message under two ids: the loop does not keep to the first |
| `ResponseStream.WriteResponseStreamEvents` | internal/httpapi/responses_stream.go:115-569 | for any events, limit and suppression: events are read up to the first that is not taken; the stream is beyond repair exactly if that one leaves the ids announced, abandoned exactly if it is a cancellation, otherwise well formed; it is delivered exactly if it is a response that extends everything streamed and is within the limit; then every item has been told; every done event of arguments has those of its item, which the fragments add up to, or to the same JSON value |
| `StreamAgreement.EndOrderOfOrdered` | internal/httpapi/responses_stream.go:489-561 | the HTTP layer appends what was not streamed exactly as the runner ordered it |
| `StreamAgreement.SuppressedSight` | internal/httpapi/responses_stream.go:394-400 | suppression takes the reasoning out of the order of first sight and nothing else |
| `StreamAgreement.TurnIsAddressed` | internal/copilotgw/turn_runner.go:1262-1301 | a turn's response has distinct ids that name their types |
| `StreamAgreement.AnnouncedAreNatural` | internal/copilotgw/turn_runner.go:360-399 | what was announced is the turn's own |
| `StreamAgreement.EveryIndexIsItsPosition` | internal/copilotgw/turn_runner.go:1262-1350 | for every turn the HTTP layer's order of first sight is the response's order, with or without reasoning |
| `StreamAgreement.CompletedCallsWereCaptured` | internal/httpapi/responses_stream.go:700-717 | a stream that completes has found every streamed call |
| `StreamAgreement.EmittedIsStable` | internal/copilotgw/turn_runner.go:935-1033 | an event the runner sends keeps to the ids announced, and is taken exactly if the limit is kept |
| `StreamAgreement.TurnIsStable` | internal/copilotgw/turn_runner.go:345-399 | so do all events of a turn |
| `StreamAgreement.TurnIsRead` | internal/httpapi/responses_stream.go:115-569 | so a turn is read to its response exactly if its fragments keep the limit |
| `StreamAgreement.StreamTurn` | internal/httpapi/responses_stream.go:115-569 | end to end: a turn is delivered exactly if its fragments keep the limit and its response fits them; the stream is well formed in any case, each done event of arguments with the arguments its fragments amount to; a delivered turn's indices are its items' positions, and every item was told |
| `StreamReconcile.TerminalStreamSuffix` | internal/httpapi/stream_reconcile.go:25-33 | a suffix exactly if the terminal text extends the streamed one |
| `StreamReconcile.ToolArgumentsSuffix` | internal/httpapi/stream_reconcile.go:60-83 | a suffix, nothing for the same JSON value, an error otherwise |
| `ChatStream.Settles` | internal/httpapi/chat.go:302-333 | settling one call keeps the others' identity and arguments |
| `ChatStream.SettledHoldsExactly` | internal/httpapi/chat.go:302-333 | with all calls settled the client holds exactly the returned ones, under the name of the first fragment where one was streamed and the name returned otherwise |
| `ChatStream.EveryStreamedCallReturned` | internal/httpapi/chat.go:302-333 | fails exactly if a streamed call is missing from the turn |
| `ChatStream.StatesApply` | internal/httpapi/chat.go:335-348 | the client's calls are the fold of the deltas it was sent |
| `ChatStream.ViewsAreObserved` | internal/httpapi/chat.go:158-240 | what the client sees is the fold of its chunks |
| `ChatStream.ToolCallStreams.Index` | internal/httpapi/chat.go:277-285 | one stable index per id, first sight reported |
| `ChatStream.ToolCallStreams.Record` | internal/httpapi/chat.go:287-293 | remembers what a call was sent |
| `ChatStream.ToolCallStreams.FragmentDelta` | internal/httpapi/chat.go:181-200 | identity with the first fragment only; the client applies it |
| `ChatStream.ToolCallStreams.TerminalDelta` | internal/httpapi/chat.go:302-333 | what one call still adds, or a contradiction |
| `ChatStream.TerminalDeltas` | internal/httpapi/chat.go:302-333 | succeeds exactly if the calls extend their fragments; afterwards the client holds exactly the returned calls, names included |
| `ChatStream.ChatWriter.OnDelta` | internal/httpapi/chat.go:161-195 | one delta forwarded and gathered |
| `ChatStream.ChatWriter.ReadDeltas` | internal/httpapi/chat.go:161-195 | all deltas up to the first other event |
| `ChatStream.ChatWriter.OnResult` | internal/httpapi/chat.go:196-234 | completes exactly if the turn extends everything streamed |
| `ChatStream.ChatWriter.CompleteReasoning` | internal/httpapi/chat.go:201-210 | reasoning completed exactly if extended |
| `ChatStream.ChatWriter.CompleteText` | internal/httpapi/chat.go:211-220 | text completed exactly if extended |
| `ChatStream.ChatWriter.CompleteCalls` | internal/httpapi/chat.go:221-231 | calls completed exactly if reconcilable |
| `ChatStream.FirstFragmentNames` | internal/httpapi/chat.go:335-345 | the name a streamed call goes by is the one its first fragment that is not empty gave |
| `ChatStream.StreamChatEvents` | internal/httpapi/chat.go:121-240 | for any events: completed exactly if a result extends everything streamed, and then the folded deltas are the turn, each call under its first name; otherwise one error |
| `KeyedSort.SortAscends` | internal/toolcatalog/catalog.go:508-535 | sorting entries with distinct keys gives a strictly ascending list |
| `KeyedSort.AscendingIsUnique` | internal/toolcatalog/catalog.go:508-535 | a set has one ascending enumeration |
| `ToolCatalog.AllNewMeansCoherent` | internal/toolcatalog/tools.go:86-100 | checking tools one by one against identities and SDK names is coherence without repeats |
| `ToolCatalog.ChecksAreValidity` | internal/toolcatalog/tools.go:58-100 | the validator's three checks together are catalog validity |
| `ToolCatalog.ValidateFlattenedTool` | internal/toolcatalog/tools.go:86-100 | accepts exactly a tool with a new identity and SDK name |
| `ToolCatalog.ValidateNamespace` | internal/toolcatalog/tools.go:58-84 | accepts exactly a new, non-empty namespace |
| `ToolCatalog.ValidateLeaves` | internal/toolcatalog/tools.go:58-84 | accepts exactly pairwise new tools |
| `ToolCatalog.ValidateCatalog` | internal/toolcatalog/tools.go:58-84 | accepts exactly the valid catalogs |
| `ToolCatalog.MergedChildren` | internal/toolcatalog/catalog.go:310-346 | merged children mean both lists, none twice |
| `ToolCatalog.MergedTool` | internal/toolcatalog/catalog.go:279-308 | merging one tool adds its meaning and nothing else |
| `ToolCatalog.MergedAll` | internal/toolcatalog/catalog.go:213-239 | merging a list adds its meaning and nothing else |
| `ToolCatalog.MergeKeepsBoth` | internal/toolcatalog/catalog.go:213-239 | a merge is valid and means exactly installed plus incoming tools |
| `ToolCatalog.MergeSucceedsExactlyIf` | internal/toolcatalog/catalog.go:213-239 | a merge succeeds exactly if the incoming tools are valid, functions or namespaces where a load asks for it, coherent with the installed ones, and the result has at most 512 tools and fits its stored size |
| `ToolCatalog.OnlyLimitsRefuse` | internal/toolcatalog/catalog.go:213-239 | coherent tools are refused by the limits only |
| `ToolCatalog.MergeIsIdempotent` | internal/toolcatalog/catalog.go:213-239 | merging the same tools again, loaded or not, changes nothing |
| `ToolCatalog.MergeOrderDoesNotMatter` | internal/toolcatalog/catalog.go:213-239 | if two lists merge in both orders, each loaded or not, the keys are equal |
| `ToolCatalog.SameMeaningSameKey` | internal/toolcatalog/catalog.go:508-546 | the key does not show the order of tools or children |
| `ToolCatalog.SameKeySameMeaning` | internal/toolcatalog/catalog.go:508-546 | equal keys mean equal tools |
| `ToolCatalog.FindLeaf` | internal/toolcatalog/catalog.go:310-346 | the first child with the identity, if any |
| `ToolCatalog.FindInstalled` | internal/toolcatalog/catalog.go:279-308 | the first installed tool with the identity, if any |
| `ToolCatalog.MergeIntoChildren` | internal/toolcatalog/catalog.go:310-346 | the child loop computes the specified merge |
| `ToolCatalog.MergeLoadedNamespace` | internal/toolcatalog/catalog.go:310-346 | so does the namespace merge |
| `ToolCatalog.MergeCatalogTool` | internal/toolcatalog/catalog.go:279-308 | so does the merge of one tool |
| `ToolCatalog.MergeEach` | internal/toolcatalog/catalog.go:213-239 | so does the merge of a list |
| `ToolCatalog.MergeIntoCatalog` | internal/toolcatalog/catalog.go:213-239 | validate, merge, validate the whole |
| `ToolCatalog.MergeLoaded` | internal/toolcatalog/catalog.go:193-211 | load limits first, 128 tools among them; no tools leave the catalog alone |
| `ToolCatalog.StoredCatalogReadsBack` | internal/toolcatalog/catalog.go:84-145 | a normalised catalog of well-formed tools survives its stored form with the same key |
| `ToolCatalog.StoredUnderAnotherKeyExactlyIf` | internal/toolcatalog/catalog.go:101-121 | under the key of another catalog it is accepted exactly if that catalog means the same |
| `ToolCatalog.StoredToolsReadBackExactlyIf` | internal/toolcatalog/catalog.go:398-458 | it is read back unchanged exactly if its tools are well formed |
| `Ownership.InvStep` | internal/copilotgw/real.go:101-160 | every lock section of requests, runners, connections and Stop keeps the ownership invariant |
| `Ownership.InvRun` | internal/copilotgw/real.go:101-160 | so does every interleaving |
| `Ownership.ExactlyOneOwner` | internal/copilotgw/real.go:101-160 | in every run a connected session is held by a request, live as a warm session, being torn down, or driven by a runner: exactly one of them |
| `Ownership.OnceMoved` | internal/copilotgw/warm_response.go:83-107 | a list of pins that changes hands leaves every pin in one list or released once |
| `Ownership.EveryPinOnce` | internal/copilotgw/turn_runner.go:1161-1188 | in every run, a pin taken and not released is in exactly one list, and a released one was released once and is in none |
| `Ownership.StopLeavesNothing` | internal/copilotgw/real.go:109-160 | once Stop and everything in flight are over, nothing is connected, no list holds a pin, and every pin ever taken was released exactly once |
| `Ownership.ClosedConnectionsLeaveNoWarmSession` | internal/httpapi/responses_ws.go:234-291 | with connections closed and requests over, no warm session is left |
| `Ownership.NoUseAfterStop` | internal/copilotgw/warm_registry.go:67-81 | after Stop began no warm session changes hands; Stop will find it |
| `Ownership.HeldSessionsStayConnected` | internal/copilotgw/warm_response.go:121-181 | nobody disconnects what a request holds |
| `Ownership.WarmSessionRegistry.Add` | internal/copilotgw/warm_registry.go:31-44 | refuses exactly when closed |
| `Ownership.WarmSessionRegistry.Remove` | internal/copilotgw/warm_registry.go:47-54 | forgets the session |
| `Ownership.WarmSessionRegistry.Release` | internal/copilotgw/warm_registry.go:67-81 | hands out exactly a tracked session of an open registry |
| `Ownership.WarmSessionRegistry.CloseAndSnapshot` | internal/copilotgw/warm_registry.go:94-107 | closes and empties, returning what was tracked |
| `Ownership.ActiveRunnerRegistry.Add` | internal/copilotgw/active_registry.go:17-28 | refuses exactly when closed |
| `Ownership.ActiveRunnerRegistry.Remove` | internal/copilotgw/active_registry.go:30-37 | forgets the runner |
| `Ownership.ActiveRunnerRegistry.CloseAndSnapshot` | internal/copilotgw/active_registry.go:39-50 | closes, returning the runners, which stay registered until their loops end |
| `Ownership.RealGateway.PinForRequest` | internal/copilotgw/response_session.go:86-91 | a request takes a pin |
| `Ownership.RealGateway.AddPinTo` | internal/copilotgw/turn_runner.go:1161-1173 | adds a pin to the runner's list, or leaves its release to the caller once the runner has released its pins |
| `Ownership.RealGateway.ReleasePin` | internal/copilotgw/turn_runner.go:1185-1187 | calls one release function of a list that somebody works through |
| `Ownership.RealGateway.ReleasePins` | internal/copilotgw/turn_runner.go:1175-1188 | takes the pins out of the list, once, as the loop is left; a loop nobody aborted has disconnected its session |
| `Ownership.RealGateway.ConnectSession` | internal/copilotgw/response_session.go:109-144 | a request connects a session |
| `Ownership.RealGateway.Fail` | internal/copilotgw/response_session.go:152-157 | a failed request disconnects it |
| `Ownership.RealGateway.TrackWarmSession` | internal/copilotgw/real.go:101-107 | parks the session with the pins handed over, or tears it down after closing |
| `Ownership.RealGateway.Disconnect` | internal/copilotgw/warm_response.go:83-101 | only the first disconnect begins a teardown |
| `Ownership.RealGateway.LeaveRegistry` | internal/copilotgw/warm_response.go:102 | which first leaves the registry |
| `Ownership.RealGateway.TearDown` | internal/copilotgw/warm_response.go:103-107 | and disconnects last, with its pins released |
| `Ownership.RealGateway.Use` | internal/copilotgw/warm_response.go:121-181 | takes the session over exactly if it is alive, suits, and the registry is open |
| `Ownership.RealGateway.NewTurnRunner` | internal/copilotgw/turn_runner.go:134-183 | starts a runner with its own pins, or aborts it after closing and releases them |
| `Ownership.RealGateway.Abort` | internal/copilotgw/turn_runner.go:249-256 | signals the loop, once |
| `Ownership.RealGateway.DisconnectAborted` | internal/copilotgw/turn_runner.go:232-244 | then disconnects, once |
| `Ownership.RealGateway.LoopEnds` | internal/copilotgw/turn_runner.go:401-408 | a loop that ends unregisters, its pins released |
| `Ownership.RealGateway.ReplaceWarmOn` | internal/httpapi/responses_ws.go:234-250 | parks the new session and discards the old, or discards the new on a closed connection |
| `Ownership.RealGateway.TakeWarmFrom` | internal/httpapi/responses_ws.go:252-269 | hands the parked session to the request that continues it, and otherwise discards it |
| `Ownership.RealGateway.CloseState` | internal/httpapi/responses_ws.go:284-291 | discards what is parked |
| `Ownership.RealGateway.GiveUp` | internal/copilotgw/response_session.go:73-75 | a request that cannot use the session gives it up |
| `Ownership.RealGateway.DisconnectGivenUp` | internal/copilotgw/warm_response.go:83-107 | what is given up is disconnected |
| `Ownership.RealGateway.CloseWarmSessions` | internal/copilotgw/real.go:109-125 | Stop closes the warm registry first |
| `Ownership.RealGateway.DrainWarmSession` | internal/copilotgw/real.go:121-125 | and disconnects what it found |
| `Ownership.RealGateway.CloseRunners` | internal/copilotgw/real.go:126-142 | only then closes and aborts the runners |
| `Ownership.RealGateway.AwaitRunner` | internal/copilotgw/real.go:143-160 | and waits for each |
| `Ownership.RealGateway.ExecuteOne` | internal/copilotgw/real.go:101-160 | a step of anybody on the real fields is the step specified |
| `Ownership.RealGateway.Execute` | internal/copilotgw/real.go:101-160 | any interleaving on the real fields ends in the state the step relation predicts |
| `SessionEvents.MovesKeepAccepted` | internal/copilotgw/session_events.go:118-161 | flushing, publishing and consuming only move items along |
| `SessionEvents.InvStep` | internal/copilotgw/session_events.go:65-161 | every lock section and channel operation keeps the sink invariant |
| `SessionEvents.InvRun` | internal/copilotgw/session_events.go:65-161 | so does every schedule of sender, flusher and consumer |
| `SessionEvents.FifoUntilStopped` | internal/copilotgw/session_events.go:76-147 | until overflow or discard, published then in-flight then pending is what was sent |
| `SessionEvents.OverflowEndsInOneError` | internal/copilotgw/session_events.go:76-116 | after an overflow it is a prefix of what was sent and one terminal error |
| `SessionEvents.ConsumerReadsPrefix` | internal/copilotgw/session_events.go:126-145 | what is consumed is a prefix of what was sent, with at most one error at its end |
| `SessionEvents.NothingUnaccounted` | internal/copilotgw/session_events.go:65-161 | sent plus synthetic equals published, in flight, pending and dropped; pending never exceeds 1025 |
| `SessionEvents.OverflowsExactlyIf` | internal/copilotgw/session_events.go:76-116 | over every run the sink overflows exactly at an event that finds 1024 pending, and publishes at once exactly if nothing is ahead and fewer than 256 wait |
| `SessionEvents.AcceptedIsDeliverable` | internal/copilotgw/session_events.go:118-147 | from every reachable state flusher and consumer alone can deliver everything accepted |
| `SessionEvents.SessionEventSink.AttachConsumer` | internal/copilotgw/session_events.go:65-74 | the attach section |
| `SessionEvents.SessionEventSink.SendEvent` | internal/copilotgw/session_events.go:76-116 | the send section: queue, overflow or drop |
| `SessionEvents.SessionEventSink.FlushTake` | internal/copilotgw/session_events.go:126-137 | takes the next pending item or stops flushing |
| `SessionEvents.SessionEventSink.FlushPublish` | internal/copilotgw/session_events.go:138-144 | publishes the item in flight when there is room |
| `SessionEvents.SessionEventSink.Discard` | internal/copilotgw/session_events.go:149-161 | a finished consumer makes the flusher drop and count everything held |
| `SessionEvents.SessionEventSink.Receive` | internal/copilotgw/session_events.go:55-63 | the consumer reads the oldest published item |
| `SessionEvents.SessionEventSink.Execute` | internal/copilotgw/session_events.go:65-161 | any schedule on the real fields ends in the state the step relation predicts |
| `WarmInput.RunExtends` | internal/copilotgw/response_session.go:194-230 | following the chain extends a run of pending same-session records as far as it goes |
| `WarmInput.RunIsMaximal` | internal/copilotgw/response_session.go:194-230 | what is collected is a run nothing can extend, or 20 records long |
| `WarmInput.RunsAgree` | internal/copilotgw/response_session.go:194-230 | there is only one such run |
| `WarmInput.WordsFollowRun` | internal/copilotgw/response_session.go:194-230 | the prompt's texts are those of the run's non-blank records in its order |
| `WarmInput.PendingInputForSession` | internal/copilotgw/response_session.go:194-230 | the loop collects that run and its texts, oldest first |
| `WarmInput.WarmSessionCarriesItsRun` | internal/copilotgw/warm_response.go:284-335 | a warm session on top of another carries what a resume of its record would collect, but for the limit |
| `WarmInput.WarmSessionIsAResumeExactlyIf` | internal/copilotgw/warm_response.go:284-335 | it carries the same inputs as that resume, and the same texts, exactly if the run it was resumed on is below the limit |
| `WarmInput.FullRunIsOneMore` | internal/copilotgw/warm_response.go:284-335 | at the limit it carries one input more, the oldest |
| `WarmInput.WarmSessionTells` | internal/copilotgw/warm_response.go:284-335 | the texts it joins are those of the inputs it carries, in their order |
| `WarmInput.CollectedWasBuffered` | internal/copilotgw/response_session.go:194-230 | what is collected for a session was buffered for that session, texts included |
| `WarmInput.InvStep` | internal/copilotgw/response_session.go:194-248 | every save, prepare, send, clear, delete, prune and crash keeps the delivery invariant |
| `WarmInput.InvRun` | internal/copilotgw/response_session.go:194-248 | so does every run |
| `WarmInput.SettledInputWasDelivered` | internal/copilotgw/response_session.go:242-248 | over every run with crashes anywhere, a claim is cleared only if its input was sent to its own session, in a prompt that starts with the texts of all inputs it settles |
| `WarmInput.PromptEndsWithItsTurn` | internal/copilotgw/response_session.go:250-262 | a turn's prompt is what its buffered inputs say and then what its own request says |
| `WarmInput.UndeliveredInputStaysClaimed` | internal/copilotgw/response_session.go:242-248 | input not delivered is still claimed and would be collected |
| `WarmInput.ClaimsBehindTheLimitAreLeft` | internal/copilotgw/response_session.go:194-248 | once a turn has settled the run it carried, nothing more is collected from there, so a claim behind the limit stays |
| `WarmInput.CrashAfterSendRepeats` | internal/copilotgw/response_session.go:242-248 | a crash between send and clear sends again |
| `WarmInput.Store.ClearClaim` | internal/sessionstore/store.go:425-443 | clears one claim of a live record |
| `WarmInput.Store.MarkPendingInputDelivered` | internal/copilotgw/response_session.go:242-248 | clears exactly the listed claims |
| `ResponseHistory.ResponseContinuationChain` | internal/copilotgw/response_hydration.go:26-43 | the chain runs oldest first to the given record, repeats none, and is as long as it can be up to 20 |
| `ResponseHistory.AnsweredCalls` | internal/copilotgw/response_hydration.go:74-82 | the call ids some record holds a function output for |
| `ResponseHistory.ResponseContinuationHistory` | internal/copilotgw/response_hydration.go:74-89 | the loops build the specified messages, which say what the records say |
| `ResponseHistory.AppendResponseRecordHistory` | internal/copilotgw/response_hydration.go:91-141 | one record's messages and the calls it declares: its input, reasoning and output text once each, in this order |
| `ResponseHistory.AssistantOf` | internal/copilotgw/response_hydration.go:114-139 | its assistant message, summaries included, if it has anything to say |
| `ResponseHistory.ResponseRecordReasoning` | internal/copilotgw/response_hydration.go:175-188 | its non-empty reasoning summaries |
| `ResponseHistory.OutputsSplit` | internal/copilotgw/response_hydration.go:94-101 | every output is replayed or noted, never both |
| `ResponseHistory.CallsSplit` | internal/copilotgw/response_hydration.go:116-128 | every call is requested again or summarised, never both |
| `ResponseHistory.NothingIsDropped` | internal/copilotgw/response_hydration.go:74-141 | every stored output and every stored call is told as often as it is stored, the call by a request or by its summary |
| `ResponseHistory.HistoryIsTheConversation` | internal/copilotgw/response_hydration.go:91-139 | read back from its messages the history says what the records say, in their order: each input that is not blank as one user text, then its reasoning summaries and its output text, each once |
| `ResponseHistory.UserTextsAreTheInputs` | internal/copilotgw/response_hydration.go:91-113 | the user texts that are not notes are exactly the inputs that are not blank, in record order |
| `ResponseHistory.SummaryTellsTheCallExactlyIf` | internal/copilotgw/continuations.go:522-541 | a function call's summary says as much as a request exactly if no namespace stands without a name and the arguments, if any, are stored as text |
| `ResponseHistory.HistoryIsReplayable` | internal/copilotgw/response_hydration.go:74-165 | whatever the records hold, the history passes the hydrator's checks; each answer follows its request |
| `ResponseHistory.RequestIsAnsweredExactlyIf` | internal/copilotgw/response_hydration.go:91-165 | a replayed request is answered once for every function output a later record holds for it, so exactly if there is one |
| `ResponseHistory.LaterOutputsAnswerAll` | internal/copilotgw/response_hydration.go:91-165 | with outputs only behind their calls no request stays open |
| `ResponseHistory.OutputStoredWithItsCallAnswersNothing` | internal/copilotgw/response_hydration.go:91-165 | an output stored with its own call leaves the request open |
| `Hydration.Builder.Add` | internal/hydration/hydration.go:167-193 | the new event has the previous one as parent, a fresh id, and the next millisecond |
| `Hydration.DefsAreRequests` | internal/hydration/hydration.go:80-113 | the definitions so far are the requests so far |
| `Hydration.DecodeCalls` | internal/hydration/hydration.go:98-114 | accepts exactly calls with ids and one JSON value each |
| `Hydration.AddMessage` | internal/hydration/hydration.go:82-131 | accepts exactly known roles, good calls and defined answers, adding the message's events |
| `Hydration.BuildChatHistoryMessages` | internal/hydration/hydration.go:59-138 | succeeds exactly on replayable messages, names the first that is not, and builds one parent chain with increasing timestamps |
| `Hydration.EventsTellTheMessages` | internal/hydration/hydration.go:80-131 | the messages can be read back from the events, but for decoded arguments |
| `Hydration.NormalKeepsTheCalls` | internal/hydration/hydration.go:98-114 | up to decoding means: the same calls, names and arguments, no arguments being the empty object |
| `Hydration.EveryTurnIsBracketed` | internal/hydration/hydration.go:86-116 | every assistant message is a turn of its own, opened, closed and numbered in order |
| `Hydration.EventsSay` | internal/hydration/hydration.go:80-131 | what the events say is what the messages read back from them say |
| `Hydration.ToolEventsRepeatTheirRequests` | internal/hydration/hydration.go:117-128 | every tool execution repeats an earlier request and completes at once |
| `Hydration.HydrateResponseContinuation` | internal/copilotgw/response_hydration.go:49-62 | hydrating a chain never fails in the hydrator; the session tells the history of the chain turn by turn, and its events say what the records say: inputs, reasoning and output texts, in order, each once |

## Left out

- RetentionStore.Store.Execute: sessions are kept for saves that keep their part of the pin protocol only; a save without a pinned session is not a step.
- SchemaBounds.RewritePreservesMeaning: references by `$anchor` or `$id` are not evaluated, only by path; unreadable references fail when they are followed.
- StreamAgreement.StreamTurn: one turn at a time; attaching a stream in mid-turn forgets the ids announced before, and reasoning that ends only after a tool turn was emitted belongs to no turn.
- ResponseStream.WriteResponseStreamEvents: a failing writer and a cancelled request end the stream early, and of such a stream only the byte limit is claimed; content parts are texts, item statuses are not modelled, and fragments of reasoning that follows content go to a summary part already said to be whole, and the client takes them.
- ToolCatalog.MergeKeepsBoth: for catalogs whose top-level tools have no namespace, with namespaces one level deep; that merging never writes into the receiver's slices is not expressible on values.
- ToolCatalog.SameKeySameMeaning: of the key before it is hashed.
- StreamReconcile.ToolArgumentsSuffix: numbers are compared as the decoder reads them, so no equality of exact numbers is claimed.
- Hydration.BuildChatHistoryMessages: events always marshal; message ids and the texts of notes and summaries are not modelled.
- The partial removal of a session directory; byte totals beyond 64 bits; image attachments.
- Which of several errors is reported where the Go code iterates over a map.
- The dry-run plan when the link index is unavailable: only the deletion step decides then.
- The names of record files (`safeName`), ownership markers, locks, permissions, purge.
- HTTP routing, framing, keep-alive, authentication, configuration, logging, error mapping.
- The SDK, JSON-RPC, JSON Schema validation proper and model metadata.
- Clocks: time to live and idle timeouts are steps that may happen at any moment.
