# The event loop, proved

A Dafny 4.11 model of a C library that orchestrates many HTTP requests over libcurl. It covers the five
stateful components whose logic involves little input or output:

- the **resource graph** (`src/curl_resource.c`): reference-counted nodes that carry a payload or a failure, each
  with a queue of requests that wait for it;
- the **event loop** (`src/curl_event_loop.c`, with start, cleanup and destroy in `src/curl_event_request.c`):
  the state machine that moves requests between pending, blocked, inactive, refresh, rate-limited and queued;
- the **rate manager** (`src/rate_manager.c`): a lazily refilled token bucket per key, with precedence for
  high-priority requests and a backoff after a 429;
- the **inbox** (`src/curl_resource.c`): a lock-free stack through which other threads reach the loop thread;
- the **worker pool** (`src/worker_pool.c`): a queue under a mutex and a condition variable.

The size limit on downloads and the default retry policy of `src/curl_event_request.c` are modelled too.

`dafny verify dfyconfig.toml` checks everything.

## How it is built

The loop is modelled twice. `LoopState` and `LoopSteps` describe it as a transition system: the state holds plain
sequences, one event handles one request or one resource call, and each event carries what the environment answered
(the clock, the rate manager, the callbacks, libcurl, and the place a multimap chose among equal keys). `Filing`,
`Counting`, `Waiting`, `LoopInvariant`, `LoopEvents` and `LoopRuns` prove an invariant of every reachable state;
`EventOutcomes` says what each event does from the event's own fields; `LoopTheorems`, `ScanReasons`, `PublishOutcome`,
`Resolution` and `Teardown` derive what the loop promises. `PublishSafety`,
`OwnerRelease`, `UndrainedCancel` and `MissingRetry` look at what the transition system does not let happen: they say
exactly when the code then goes wrong, and show runs that get there. `LimitedTurns` puts the loop and a token bucket
together.

`EventLoop.Loop` is the same loop as the code has it: a class whose fields are the list heads, the multimaps, the
counters and the memory of requests and nodes, whose methods relink `nextPending` and `nextCancelled` in while loops,
and which is proved, method by method, to follow the transition system. Memory is an explicit map from addresses to
records, because Dafny's own objects are never freed: here a freed request or node is gone from the map, so every
read of one carries a proof that it is still live. The ghost field `m` is the abstract state the memory represents;
the predicates `Cells`, `Links`, `Mapped` and `Logs` say how, and the counters `numQueued`,
`numInactive` and `numRefresh` are part of it. Each public method takes a loop that is `Valid()` (its memory represents
a reachable state) to another one and says by which events.

The inbox and the worker pool are step machines over any number of threads, with their sequential parts as classes
over linked objects; the rate manager is a class over one bucket object per key, with its laws proved about the
bucket as a value.

## The environment and the scope

- libcurl, the callbacks and the rate manager (as seen by the loop) answer arbitrarily. Callbacks do not call back
  into the library and do not change the key of a request that is filed.
- The clock is integer nanoseconds and never goes back. Tokens are reals.
- The ordered multimap keeps its requests sorted by key; where it puts equal keys is open.
- **Cancel.** In the transition system a request is cancelled at most once, while it is pending for the first time or
  queued, inactive or refresh, and the cancel is drained before the request moves. `UndrainedCancel` proves that these
  are exactly the places where the drain finds the request in the multimap it takes it out of, says exactly which
  moves spoil that, and has a run in which the cancelled list is left with a freed request. `LinkedMemory` says when a
  second cancel is recognised, and what it does when it is not.
- **Auto-release** is switched on by someone who holds the owner's reference, and in the transition system an owner
  with auto-release on does not drop the last reference it holds. The code permits it, and then it is false that no
  pinned node is erased: `OwnerRelease` proves exactly when it happens and has a run that gets there.
  `PublishSafety` states for all graphs, with no rule for callers, when publish and teardown read freed memory.
  Destroying the loop in any state, with such nodes around or with cancels that were not drained, is part of the
  transition system: `Teardown` proves exactly when it is safe, and where it reads freed memory if not.
- **429.** The easy handle stays attached to a request that a 429 sends to the rate-limited multimap, and
  setup forgets it when the request is started again; `leaked` counts such handles.
- **No retry policy.** A negative answer for a request without an `on_retry` callback (`max_retries` of 0 and none
  set; a missing `on_failure` answers -1) makes the code call a null pointer, unless a 429 on a rate limit is handled
  first. `MissingRetry` proves exactly when, and that a request left as initialised is safe because the `on_failure`
  that `curl_sink_defaults` sets answers 0. `Enabled` and `MessageFits` exclude exactly the answers that ask a missing
  `on_retry`. `on_complete`, which the code also calls without looking, is taken as set; `MissingRetry` covers both.
- **Submit.** A request is submitted once; `LoopTheorems.SecondSubmitIff` says when a second submission is recognised.
- **Inbox.** The inbox is reset at the start of every turn of the loop, so its claims are between resets.

Where the code and its documentation differ, the model follows the code:

- a retry by the default policy is delayed, although the documentation says that a negative answer retries at once
  (`Backoff.Retries.Retry`);
- when `rate_manager_start_request` turns a request down, its next time is set to the *length* of the wait, not to
  the time it ends (`LoopTheorems.RefusedStartDueIff`);
- a refreshed request keeps the key it had, so no interval is waited for (`LoopTheorems.RefreshKeepsInterval`);
- `max_concurrent` of a rate limit is stored and never enforced (`RateLimits.MaxConcurrentIgnored`);
- 0 from `rate_manager_start_request` does not always mean that a token was taken (`RateLimits.ZeroWithoutTokenIff`).

## Model

| member | source | states |
|---|---|---|
| EventLoop.Loop.constructor | src/curl_event_loop.c:15-76 | A new loop is valid and empty. |
| EventLoop.Loop.GetOrCreateNode | src/curl_resource.c:80-92 | Finds the node or adds a placeholder with no reference, and changes nothing else. |
| EventLoop.Loop.EraseNode | src/curl_resource.c:333-342 | Only a node nobody is blocked on is freed; its payload is cleaned up if it has a cleanup. |
| EventLoop.Loop.ReleaseNode | src/curl_resource.c:324-343 | Drops one reference; the node goes, and its payload is cleaned up, exactly when that was the last. |
| EventLoop.Loop.MaybeAutoreleaseOwner | src/curl_resource.c:200-210 | Drops the owner's reference exactly when auto-release is on, one reference is left and nobody waits. |
| EventLoop.Loop.ReleaseRequestDeps | src/curl_resource.c:212-225 | The loop over the dependencies hands back each pin in turn, never touching a node that is gone. |
| EventLoop.Loop.RetainRequestDeps | src/curl_resource.c:179-187 | The loop pins every dependency, creating placeholders for those not there. |
| EventLoop.Loop.CleanupRequest | src/curl_event_request.c:387-400 | An attached handle leaves the multi handle and is counted out; otherwise nothing happens. |
| EventLoop.Loop.DestroyRequest | src/curl_event_request.c:402-432 | A live request that no list and no cancelled list leads to is cleaned up, hands back its pins and is freed; every list of the loop stays linked. |
| EventLoop.Loop.PlaceFor | include/a-curl-library/impl/curl_event_priv.h:82-91 | A place at which a key keeps a sorted multimap sorted always exists and is found. |
| EventLoop.Loop.InsertInto | include/a-curl-library/impl/curl_event_priv.h:82-91 | Inserting keeps the multimap sorted, and its counter equal to its size. |
| EventLoop.Loop.EraseFrom | src/curl_event_loop.c:269-280 | Takes a request out of the multimap that holds it, with its counter. |
| EventLoop.Loop.RequeuePending | src/curl_resource.c:72-77 | Links a request that is in no list in front of the pending list; all other lists are untouched. |
| EventLoop.Loop.BlockRequestOnRes | src/curl_resource.c:95-107 | Links a request that is in no list behind the tail of the node's waiters; head, tail and order are right and all other lists are untouched. |
| EventLoop.Loop.BlockOnId | src/curl_resource.c:401-412 | Blocks exactly when the node has neither a payload nor a failure. |
| EventLoop.Loop.CheckAndBlockList | src/curl_resource.c:414-425 | Blocks on the first unmet dependency and on no other, or on none if all are met. |
| EventLoop.Loop.AllReadyList | src/curl_resource.c:427-437 | Answers whether every dependency is there and published or failed. |
| EventLoop.Loop.RequestReady | src/curl_event_loop.c:228-245 | True exactly when a slot is free, the rate manager lets go, the dependencies are met and the time has come. |
| EventLoop.Loop.EnqueueRequest | src/curl_event_loop.c:247-255 | Files the request in the refresh or the inactive multimap, at a place for its key, and counts it. |
| EventLoop.Loop.SetUpHandle | src/curl_event_request.c:496-506 | A handle still attached is forgotten before a new one is asked for. |
| EventLoop.Loop.StartRequest | src/curl_event_request.c:588-614 | A request in no list ends up queued and attached, refused and filed under the wait, or destroyed, as the answers say. |
| EventLoop.Loop.ProcessCancelledRequest | src/curl_event_loop.c:266-283 | The multimap chosen from the handle and the refresh flag is the one that holds the request; it is taken out and destroyed, and the next link was read while it was live. |
| EventLoop.Loop.DetachLists | src/curl_event_loop.c:258-264 | Both shared lists are handed over whole, the shared heads cleared. |
| EventLoop.Loop.ProcessPendingRequest | src/curl_event_loop.c:285-309 | One turn of the loop is one event: destroyed if cancelled, else pinned once and blocked, started or enqueued; the rest of the snapshot is untouched. |
| EventLoop.Loop.ProcessCancelledAndPendingRequests | src/curl_event_loop.c:257-310 | Ends; follows enabled events only; every cancelled request is destroyed and gone, and both shared lists are empty after it. |
| EventLoop.Loop.SubmitRequest | src/curl_event_request.c:336-380 | The request is first in the pending list, under the time now or earlier by its priority in seconds. |
| EventLoop.Loop.CancelRequest | src/curl_event_loop.c:104-123 | Succeeds for a request not cancelled before: flags it, and links it into the cancelled list exactly when it is not pending. |
| EventLoop.Loop.AddReferenceTo | src/curl_resource.c:170-177 | Adds a caller's reference, the first one on a placeholder being the owner's. |
| EventLoop.Loop.SetAutoReleaseOf | src/curl_resource.c:189-196 | Sets the flag on the node, which it creates if need be. |
| EventLoop.Loop.DropReferenceTo | src/curl_resource.c:324-343 | A caller drops a reference it holds; a node it frees has no waiters. |
| EventLoop.Loop.StorePayload | src/curl_resource.c:246-263 | The old payload is cleaned up once if it has a cleanup; then the node has the new one with its cleanup, and an empty payload marks a failure. |
| EventLoop.Loop.DetachWaiters | src/curl_resource.c:265-267 | The waiters are taken over whole and the node's list is emptied. |
| EventLoop.Loop.PublishToWaiter | src/curl_resource.c:270-284 | One waiter: told and destroyed if the node failed, else put in front of the pending list; the node is live when it is read. |
| EventLoop.Loop.PublishResource | src/curl_resource.c:239-285 | Ends; a failure calls on_failure once per waiter that has it, in blocking order, and destroys each waiter once, and the node, if still there, is failed and empty; a payload is on the node with its cleanup, the one before is cleaned up, the waiters are in front of the pending list, last first, and nobody is destroyed. |
| EventLoop.Loop.RefileHead | src/curl_event_loop.c:203-215 | A refused head moves to the rate-limited multimap under the time its wait ends. |
| EventLoop.Loop.ScanOne | src/curl_event_loop.c:353-365 | One turn refiles the head, starts it or stops; unless it stops, the multimap has shrunk. |
| EventLoop.Loop.ScanMultimap | src/curl_event_loop.c:389-402 | The scan ends; it leaves the multimap empty, or its head not due when the clock was last read, unless the head has a rate limit, an unmet dependency or no free slot. |
| EventLoop.Loop.MergeRefiled | src/curl_event_loop.c:366-371 | Everything refiled while the rate-limited multimap was detached is merged into it, sorted. |
| EventLoop.Loop.MoveInactiveRequestsToQueue | src/curl_event_loop.c:347-403 | Ends; follows enabled events only; each rate-limited request left was not due at the snapshot, was turned away in this call, or is behind one whose second poll turned it away, unless no slot is free; the refresh and inactive multimaps are empty, or the head is not due or was turned away by its second poll, unless no slot is free, so without a rate limit at the head nothing in them was due. |
| EventLoop.Loop.Conclude | src/curl_event_loop.c:422-463 | A finished request is refiled, retried, refreshed or destroyed as the answers say, under the key and retry count they give. |
| EventLoop.Loop.ProcessCompletedRequests | src/curl_event_loop.c:405-465 | Each message completes its own queued request, once and in order. |
| EventLoop.Loop.CloseMultimap | src/curl_event_loop.c:130-136 | Empties one container, destroying each request in it once; the containers before it stay empty. |
| EventLoop.Loop.WalkCancelled | src/curl_event_loop.c:165-172 | The walk gets through exactly when no cancel was left undrained; else the head it would read is no longer in memory. |
| EventLoop.Loop.ClosePending | src/curl_event_loop.c:174-181 | Destroys every pending request, each next link read before its request is freed. |
| EventLoop.Loop.CloseFirstNode | src/curl_resource.c:445-477 | Takes the first node apart: its waiters are told and destroyed, and the node is still there when it is read and erased. |
| EventLoop.Loop.DestroyLoop | src/curl_event_loop.c:125-201 | With every cancel drained no request and no node is left in memory, every submitted request was destroyed exactly once, and the cleanups run are exactly the payloads accepted with one. With a cancel undrained it comes to the walk over the cancelled list, whose head has been freed. |
| EventLoop.PublishResult | src/curl_resource.c:269-284 | Whatever run publish takes, its events determine who was told, who was destroyed and who is pending. |
| LoopRuns.EventKeeps | src/curl_event_loop.c:489-544 | Every event of callers and of the loop thread keeps the invariant of lists, counts, waiting and modes. |
| LoopRuns.ReachableInv | src/curl_event_loop.c:489-544 | The invariant holds in every state any run from a new loop can reach. |
| LoopTheorems.RefcountsExact | src/curl_resource.c:170-225 | In every reachable state a node's count is the references callers hold plus its entries in live, retained requests. |
| LoopTheorems.PinnedNodesLive | src/curl_resource.c:198-225 | A node that a retained request names or a request waits on is there, with a positive count. |
| LoopTheorems.EachInOnePlace | src/curl_event_loop.c:203-310 | Every request submitted and not destroyed is in exactly one list, once. |
| LoopTheorems.ListedAreLive | src/curl_event_loop.c:266-309 | Lists hold live requests only, and no request is destroyed twice. |
| LoopTheorems.AdmittedRequests | src/curl_event_loop.c:228-245 | The queue never exceeds its limit, and each queued request was due and had, and still has, every dependency published or failed. |
| LoopTheorems.SecondCheckPasses | src/curl_resource.c:427-437 | Once a request has passed the dependency check, the check in request_ready cannot fail it. |
| LoopTheorems.MapsSorted | include/a-curl-library/impl/curl_event_priv.h:82-91 | Every multimap is sorted in every reachable state, for keys change only out of a map. |
| LoopTheorems.RetryBound | src/curl_event_request.c:73-86 | Over its whole life a request that is not refreshed is granted at most max_retries retries by the default policy. |
| LoopTheorems.MultiCount | src/curl_event_loop.c:433-438 | num_multi_requests counts the attached requests and the handles forgotten after a 429. |
| LoopTheorems.MultiIsQueuedIff | src/curl_event_loop.c:433-438 | num_multi_requests equals num_queued_requests exactly while no 429 has left a handle outside the queue. |
| LoopTheorems.TooManyLeavesHandle | src/curl_event_loop.c:433-438 | A 429 takes a request out of the queue and leaves its handle counted: the two numbers part. |
| LoopTheorems.RefusedStartDueIff | src/curl_event_request.c:592-600 | A refused start makes the request due once the clock has passed the length of the wait, which is what the documentation promises exactly outside the interval from that length to the end of the wait. |
| LoopTheorems.RefusedStartDueAtOnce | src/curl_event_request.c:592-600 | A second after the clock's epoch a request told to wait a millisecond is due at once. |
| LoopTheorems.RefreshKeepsInterval | src/curl_event_loop.c:452-459 | A refreshed request is filed under a time at or before its start, so its interval is kept exactly when it is zero and no time has passed since the request was due. |
| LoopTheorems.SecondSubmitIff | src/curl_event_request.c:345-349 | A second submission leaves the request linked twice exactly when it is neither pending for the first time nor holding a handle: always if it is blocked, inactive or refresh, never if it is queued. |
| LoopTheorems.ExitLeavesIff | src/curl_event_loop.c:522-528 | When the exit test lets the loop return, requests are left exactly when some are rate-limited or blocked. |
| EventOutcomes.CompletionOutcome | src/curl_event_loop.c:422-463 | A rate-limited 429 leaves the request rate-limited and due from the backoff on; a positive answer of n leaves it in its multimap and due from n seconds on; a negative one, if the policy grants a retry, due from the time the policy set; else it is refreshed with its retries forgotten, or destroyed. |
| EventOutcomes.TakeOneOutcome | src/curl_event_loop.c:285-309 | A pending request is destroyed if cancelled; else blocked behind all others on its first unmet dependency; else started if a slot is free, the rate limit passes it and it is due; else filed in its multimap under the same time. |
| EventOutcomes.ScanOutcome | src/curl_event_loop.c:203-245 | A scanned request turned away is rate-limited and due from now plus the wait; else it is started if a slot is free, the second poll passes it and it is due; else nothing changes. |
| EventOutcomes.StartOutcome | src/curl_event_request.c:588-614 | A start refused for its rate limit is due from the length of the wait; one whose handle cannot be set up is destroyed; any other is queued, attached, stamped and counted. |
| EventOutcomes.SubmitOutcome | src/curl_event_request.c:345-380 | The request is first in the pending list, pending, with no flag and no retry, and no other list changes. |
| EventOutcomes.CancelOutcome | src/curl_event_loop.c:104-123 | The request is flagged where it is, and first in the cancelled list unless it is pending. |
| EventOutcomes.TakeListsOutcome | src/curl_event_loop.c:258-264 | The drain takes both shared lists over whole and in order. |
| EventOutcomes.DropCancelledOutcome | src/curl_event_loop.c:266-283 | The drain destroys the cancelled requests one by one, last cancelled first, and calls nobody's on_failure. |
| EventOutcomes.AddThenDrop | src/curl_resource.c:170-177 | Dropping a reference just added leaves a node with references as it was, and frees one without. |
| EventOutcomes.FirstReference | src/curl_resource.c:170-177 | The first reference on an unknown id makes a node with one reference and nothing else. |
| EventOutcomes.AutoReleaseIff | src/curl_resource.c:189-225 | The end of the last request that pins a node takes the node with it exactly when auto-release was switched on, not off, the owner's reference is the only other one, and nobody is blocked on it. |
| LinkedMemory.SecondCancelSeenIff | src/curl_event_loop.c:104-123 | A second cancel is recognised exactly when the request is not the last of its cancelled list. |
| LinkedMemory.SecondCancelCycles | src/curl_event_loop.c:104-123 | If it is the last, a second cancel links the list into a circle: a walk along it never ends. |
| LinkedMemory.SecondCancelInBoth | src/curl_event_loop.c:104-123 | If it is the last of the list being drained, a second cancel puts it on the shared list too, and the drain runs on into that one. |
| LoopTheorems.BlockedOncePerDependency | src/curl_resource.c:401-425 | A request is blocked at most once on each distinct dependency, and sits on a node that is still unmet. |
| LoopTheorems.PublishLowersUnmet | src/curl_resource.c:261-284 | Publishing leaves each waiter of the node with strictly fewer unmet dependencies. |
| Resolution.PublishedStaysResolved | src/curl_resource.c:261-263 | Over any run a published or failed node is there and stays so as long as retained requests name it. |
| Resolution.PayloadXorFailed | src/curl_resource.c:256-263 | In every reachable state a resolved node either carries a payload or has failed, never both. |
| PublishOutcome.PublishNullFailsWaiters | src/curl_resource.c:239-285 | publish(NULL) runs to its end without reading the node after it is freed, tells and destroys each waiter once in blocking order, leaves exact counts, and the node, if still there, is failed and empty. |
| PublishOutcome.PublishWakesWaiters | src/curl_resource.c:280-284 | Publishing a payload puts every waiter back in the pending list, the last first, and destroys nobody; the node then has that payload and that cleanup, the payload before has been cleaned up if it had one, and no other node changes. |
| PublishSafety.PublishNullFaultsIff | src/curl_resource.c:269-284 | For any graph, counts and waiters: publish(NULL) reads the freed node exactly when the entries of the waiters before the last erase it, that is when it auto-releases and those entries are at least one and bring its count, of two or more, down to one. |
| PublishSafety.PublishNullFaultsWhenCounted | src/curl_resource.c:269-284 | If the count covers the waiters' entries, that is when the node auto-releases, has two waiters or more, is held by its waiters alone and the last one names it once. |
| PublishSafety.TeardownFaultsIff | src/curl_resource.c:457-476 | For any graph, counts and waiters: taking a node apart frees it before it is read exactly when it auto-releases and the entries of its waiters, at least one, bring its count, of two or more, down to one. |
| PublishSafety.PlaceholderPublishFaults | src/curl_resource.c:252-284 | It happens, by the calls alone: two requests retain an id nobody declared, auto-release is switched on, and publish(NULL) reads the freed node. |
| PublishSafety.OverReleasedFaults | src/curl_resource.c:269-343 | It happens too when callers drop references they do not hold: a count of two and three waiters. |
| OwnerRelease.DropExact | src/curl_resource.c:324-343 | Dropping a reference that a caller holds keeps all counts exact and erases no pinned node, even if it is the last one of an auto-release owner. |
| OwnerRelease.ErasesPinnedIff | src/curl_resource.c:198-225 | With exact counts, handing back a request's entries erases a node that others still pin exactly when it auto-releases, nobody is blocked on it, no caller holds it and one entry is left. |
| OwnerRelease.DestroyErasesPinnedIff | src/curl_event_request.c:402-412 | The same of destroying a request. |
| OwnerRelease.OwnerDropHurtsIff | src/curl_resource.c:198-225 | What an auto-release owner can check before it drops its last reference: destroying a request afterwards takes the node from another one exactly when nobody is blocked on it and the other requests name it once between them. |
| OwnerRelease.OwnerDropErasesPinned | src/curl_resource.c:198-225 | A reachable state in which that happens, though every caller released only what it held. |
| OwnerRelease.PublisherOwnsIff | src/curl_resource.c:239-254 | Publish, and so register_async, gives the caller a reference exactly when nobody holds or pins the node yet. |
| OwnerRelease.UnownedReleaseIff | src/curl_resource.c:324-343 | A release by a caller that was given none takes the node from a request exactly when a single entry is left. |
| OwnerRelease.LateRegistrantErasesPinned | src/curl_resource.c:355-390 | It happens: a request pins an id, its registration comes second, and the registrant's release takes the node from the request. |
| OwnerRelease.TeardownFaults | src/curl_resource.c:457-476 | A reachable state in which teardown reads a freed node: one owner, auto-release, one waiter. |
| OwnerRelease.ExitsWithWaiter | src/curl_event_loop.c:522-528 | A reachable state in which the loop returns while a request waits on a node. |
| UndrainedCancel.FindsIff | src/curl_event_loop.c:266-283 | In every reachable state the multimap the drain chooses for a request is the one that holds it exactly when it is queued, inactive or refresh. |
| UndrainedCancel.ScanFindsIff | src/curl_event_loop.c:347-403 | If a cancelled request is scanned before the drain, the drain still finds it exactly when it was neither turned away by a rate limit nor destroyed in setup. |
| UndrainedCancel.CompleteFindsIff | src/curl_event_loop.c:405-465 | If its transfer ends before the drain, the drain still finds it exactly when it was enqueued again. |
| UndrainedCancel.CancelledThenFreed | src/curl_event_loop.c:104-123 | It happens: the cancelled list is left with a request that was finished and freed. |
| UndrainedCancel.CancelsMissed | src/curl_event_loop.c:104-123 | Reachable states in which a cancel of a blocked, a requeued or a rate-limited request would be accepted and then looked for in the wrong multimap. |
| UndrainedCancel.UndrainedTeardownFaults | src/curl_event_loop.c:165-172 | A run with one undrained cancel whose teardown reads a freed request. |
| MissingRetry.MissingRetryFaultsIff | src/curl_event_loop.c:422-463 | A finished transfer calls a null pointer exactly when it succeeded and on_complete is missing, or no 429 on a rate limit comes first, the answer is negative and on_retry is missing; else the outcome is the model's. |
| MissingRetry.DefaultRequestSafeIff | src/curl_event_request.c:118-148 | A request left as initialised faults exactly on a negative answer, which its default on_failure never gives. |
| MissingRetry.NoFailureCallbackFaults | src/curl_event_loop.c:427-431 | With on_failure cleared, any failed transfer of it faults. |
| MissingRetry.MissingRetryCalled | src/curl_event_loop.c:447-451 | A reachable state, with a transfer in it, whose end calls the null pointer. |
| Teardown.PayloadsBalanced | src/curl_resource.c:256-263 | In every reachable state the payloads accepted with a cleanup are those cleaned up and those still held, with multiplicity. |
| Teardown.PayloadsCleaned | src/curl_resource.c:256-263 | Along any run from a new loop, the payloads that the calls of publish handed over with a cleanup are those cleaned up and those still held; when teardown is over all of them are cleaned up, each as often as it was handed over. |
| Teardown.CloseEnabled | src/curl_event_loop.c:125-201 | Until teardown is over, or comes to a read of freed memory, its next step can be taken. |
| Teardown.CloseDecreases | src/curl_resource.c:439-481 | Every step of teardown leaves less to do. |
| Teardown.SafeStays | src/curl_resource.c:439-481 | No step of teardown makes a safe state unsafe or an unsafe one safe. |
| Teardown.WalkFaultsIff | src/curl_event_loop.c:165-172 | Once the multimaps are emptied, the walk over the cancelled list reads a freed request exactly when the list is not empty. |
| Teardown.NothingLeft | src/curl_event_loop.c:125-201 | When teardown is over nothing is live, each request was destroyed once and each payload cleaned up once. |
| Teardown.TeardownCompletes | src/curl_event_loop.c:125-201 | From any reachable state: if every cancel is drained, and every auto-release node with waiters has a second caller's reference or is pinned by a waiter of a later node, teardown runs to that end; if not, it runs to the walk over the cancelled list, or to a node, and reads freed memory there. |
| Teardown.TeardownEnds | src/curl_event_loop.c:125-201 | No run of teardown is longer than what was left to do, and none stops before that end or that read. |
| Teardown.TeardownTells | src/curl_resource.c:445-476 | A teardown that gets to its end calls on_failure once for each blocked request that has one, and for no other. |
| RateManager.Bucket.Wait | src/rate_manager.c:115-117 | The answer is the computed wait cut to an integer where C defines the cast. |
| RateManager.Manager.SetLimit | src/rate_manager.c:65-86 | The bucket of the key is full and fresh, its counts kept, and no other bucket changes. |
| RateManager.Manager.CanProceed | src/rate_manager.c:88-129 | 0 if a token is there and nobody has precedence, else the wait; a high-priority request turned away is counted; no other bucket changes. |
| RateManager.Manager.StartRequest | src/rate_manager.c:131-166 | Takes a token exactly when one is there and nobody has precedence, and answers 0 then; else the wait. |
| RateManager.Manager.RequestDone | src/rate_manager.c:168-182 | Resets the backoff and the time of the last success of that key alone. |
| RateManager.Manager.Handle429 | src/rate_manager.c:184-212 | Answers the new backoff: 1 within two seconds of a success, else doubled up to 60. |
| RateLimits.TokensBounded | src/rate_manager.c:99-104 | Tokens stay within 0..max_rps over any run of calls. |
| RateLimits.WindowBound | src/rate_manager.c:142-159 | The tokens a window hands out and those left at its end are at most those there at its start plus what flows in. |
| RateLimits.WindowCap | src/rate_manager.c:142-159 | Hence at most max_rps * (1 + t - s) debits between s and t. |
| RateLimits.WindowExact | src/rate_manager.c:142-159 | While the bucket does not overflow not a token is lost: what a window hands out and what is left is all there was and all that flowed in. |
| RateLimits.WholeTokensGranted | src/rate_manager.c:148-159 | A bucket with n whole tokens grants exactly the first n of any number of starts at one instant, if nobody has precedence. |
| RateLimits.FreshLimitGrants | src/rate_manager.c:65-86 | A limit just set grants as many starts at once as its rate has whole requests a second. |
| RateLimits.SetLimitKeepsShut | src/rate_manager.c:65-86 | Setting a limit anew keeps the refused high-priority polls on its count, and normal requests shut out by them. |
| RateLimits.FreshLimitBackoff | src/rate_manager.c:65-86 | The first 429 after set_limit backs off one second within two seconds of it, and two later on. |
| RateLimits.CurrentExact | src/rate_manager.c:150-210 | current_requests is the tokens taken less the requests that came back, while no more come back than are under way. |
| RateLimits.RefillTwice | src/rate_manager.c:103-104 | Refilling at one time and then another is refilling once. |
| RateLimits.PollsLeaveNoTrace | src/rate_manager.c:120-128 | Any number of normal-priority polls in a run leave every later debit decision and token level as it was. |
| RateLimits.WaitIsTight | src/rate_manager.c:163-165 | Left alone, the bucket has a whole token one nanosecond after the answered wait at the latest, and none before the wait is over. |
| RateLimits.ZeroWithoutTokenIff | src/rate_manager.c:163-165 | start_request must answer 0 without a debit exactly when the tokens are within max_rps nanoseconds' worth of one. |
| RateLimits.CastOutsideIff | src/rate_manager.c:163-165 | The wait of a request turned away is outside the range of the cast exactly when a normal one waits for precedence alone with max_rps nanoseconds' worth of tokens to spare, or a token is 2^64 nanoseconds away. |
| RateLimits.StartsWithoutToken | src/rate_manager.c:148-165 | It happens: one token, a high-priority request waiting for it, and a normal one that starts. |
| RateLimits.DebitsEverIff | src/rate_manager.c:148-159 | A limit ever hands out a token if and only if its rate is at least one request a second. |
| RateLimits.HighPriorityFirst | src/rate_manager.c:106-128 | After a high-priority poll was turned away no normal request takes a token until as many high-priority debits as polls turned away. |
| RateLimits.NormalDebitsEverIff | src/rate_manager.c:106-166 | As long as no high-priority request starts, a limit of at least one a second ever hands out a token exactly when no refused high-priority poll is left on its count. |
| RateLimits.NormalStarves | src/rate_manager.c:113-114 | It happens from a set_limit: a high-priority request that polled twice before its one start shuts normal requests out for good. |
| LimitedTurns.EpisodeCalls | src/curl_event_loop.c:203-240 | A request turned away once when it was pending is polled again by a scan, refiled, and polled twice more before it starts. |
| LimitedTurns.EpisodeLeavesCount | src/rate_manager.c:106-153 | So a high-priority request that finds no token twice leaves a refused poll on the count, and normal requests get no token until another one starts. |
| RateLimits.BackoffBounded | src/rate_manager.c:202-207 | The backoff stays within 1..60. |
| RateLimits.BackoffDoubles | src/rate_manager.c:202-207 | After m 429s with no completion, two seconds or more after the last success, it is min(2^m, 60). |
| RateLimits.BackoffResets | src/rate_manager.c:168-207 | A completion resets it to 1, a 429 within two seconds leaves it there, and then it counts from 1. |
| RateLimits.MaxConcurrentIgnored | src/rate_manager.c:65-86 | Whatever max_concurrent is set to, every run hands out the same tokens and ends in the same state. |
| OperationStack.ResInbox.Push | src/curl_resource.c:115-123 | The operation is on top of the stack. |
| OperationStack.ResInbox.Drain | src/curl_resource.c:138-167 | Reverses the stack in place and applies it in push order, leaving it empty. |
| Inbox.SwapKeeps | src/curl_resource.c:118-122 | A compare-and-swap that succeeds pushes its cell on the stack that is there, even if the head was freed and its address used again in between. |
| Inbox.DrainTakesAll | src/curl_resource.c:142-144 | A drain takes exactly what was pushed since the previous one, in compare-and-swap order. |
| Inbox.DrainAppliesBatch | src/curl_resource.c:138-167 | When it ends it has applied exactly that, each once and in that order, under any interleaving. |
| Inbox.NothingLostButByReset | src/curl_resource.c:131-135 | Every pushed operation is applied, under way or waiting, or was lost to a reset, which loses exactly what was pushed since. |
| Inbox.InboxIsAtomic | src/curl_resource.c:109-167 | Told by the steps alone, the inbox is one atomic list: an operation joins its end when its compare-and-swap succeeds, a drain takes all there is and applies it in order, and a reset throws all there is away. |
| Inbox.ResetLoses | src/curl_event_loop.c:496 | It happens: an operation pushed before the next turn of the loop is lost. |
| Inbox.CellsLive | src/curl_resource.c:146-165 | No thread reads an operation that was freed. |
| WorkQueue.Queue.Push | src/worker_pool.c:125-131 | The job is last, and the links from head to tail are right. |
| WorkQueue.Queue.Pop | src/worker_pool.c:38-49 | The oldest job, or null exactly when the queue is empty and stopping. |
| WorkerPool.FirstInFirstOut | src/worker_pool.c:33-65 | In every reachable state the items taken, then those queued, are the items pushed, in order; each one taken is running or done, once. |
| WorkerPool.AllExecuted | src/worker_pool.c:97-115 | When destroy has joined all threads, the items executed are exactly those pushed. |
| WorkerPool.PushedAsRequested | src/worker_pool.c:117-135 | Counted from the calls of push: the items taken, those queued and the one being linked are those clients pushed, in the order they got the mutex; and when all threads are joined exactly those were executed. |
| WorkerPool.NoLostWakeup | src/worker_pool.c:34-49 | With work queued some worker is up, unless a push is about to signal; after the broadcast no worker waits. |
| WorkerPool.OwnRunBounded | src/worker_pool.c:52-65 | By themselves the workers can go on for a bounded number of steps only, under any scheduling. |
| WorkerPool.OwnStepEnabled | src/worker_pool.c:33-50 | Until they all wait or are gone, some worker can go on whenever no client holds the mutex. |
| WorkerPool.RestMeansDone | src/worker_pool.c:97-107 | When they all wait or are gone, everything pushed has been executed; if stopping, all can be joined. |
| WorkerPool.DestroyCompletes | src/worker_pool.c:97-115 | Under any scheduling, spurious wakeups included, a run from the call of destroy is bounded, can stop only when every thread is joined, and has then executed every item pushed, once. |
| Download.Attempt.Write | src/curl_event_request.c:435-456 | A chunk within the limit goes through whole; one that crosses it is cut at the limit and refused. |
| Download.Attempt.Receive | src/curl_event_request.c:435-456 | However a body is cut into chunks, its first min(length, limit) bytes are delivered in order, and it is aborted exactly when it is longer. |
| Backoff.ComputeBackoff | src/curl_event_request.c:52-70 | The loop computes the draw below 100 * factor^attempt milliseconds, raised to the floor and then cut at the cap. |
| Backoff.CeilingMillis | src/curl_event_request.c:57-62 | The ceiling is 100 ms times the factor for the first retry, 100 ms times its k-th power for the k-th if it is whole, and a factor of zero or less counts as two. |
| Backoff.FirstRetryDelay | src/curl_event_request.c:57-70 | With factor two, half jitter and the least random number the first retry waits 100 ms. |
| Backoff.DrawnIff | src/curl_event_request.c:64-65 | The delays that can be drawn are all of 0..C with full jitter, and C/2..2*(C/2) with half jitter. |
| Backoff.CapWins | src/curl_event_request.c:67-68 | The cap always holds; the floor holds for every draw exactly when it is not above the cap; a draw below the floor becomes the floor, one above the cap the cap, and any other stays. |
| Backoff.Retries.Retry | src/curl_event_request.c:73-86 | Grants a retry exactly while the count is below the limit or the limit is -1, counts it, and sets the time by the count. |
| WorkQueue.Queue.MustWait | src/worker_pool.c:35-37 | A worker waits exactly when the queue is empty and not stopping. |
| WorkerPool.HolderGoesOn | src/worker_pool.c:125-133 | Whoever else holds the mutex can take its next step, so no one is stuck behind it. |
| Inbox.DrainEnds | src/curl_resource.c:146-165 | Every step of a drain leaves it less to do, whatever producers do in between. |
| Backoff.CeilingGrows | src/curl_event_request.c:59-62 | With a factor of at least one later delays are drawn below higher ceilings. |

## Left out

- `curl_event_loop_inject` and the injected list: the copy shares the pool of the original, so who owns it is unclear.
- libcurl calls, handle options, sockets and the calculation of the next timer: foreign calls and waiting.
- The wait of `curl_event_loop_run`, `on_loop`, and the metrics.
- EventLoop.Loop.ProcessCancelledAndPendingRequests: other threads may submit or cancel while it runs; the class runs it alone. The transition system lets `Submit` and `Cancel` happen between any two of its events.
- EventLoop.Loop.CloseMultimap: keeps the counters in step with the multimaps, which the code does not bother to do while it tears the loop down.
- EventLoop.Loop.ClosePending: the code leaves the head of the pending list stale during its walk; nothing reads it meanwhile.
- EventLoop.Loop.SubmitRequest: takes the effective priority and policy as its arguments and leaves out the default method; it asks that the request was never submitted before (`LoopTheorems.SecondSubmitIff` says what the code does otherwise).
- EventLoop.Loop.CancelRequest: asks that it is the first cancel and that the request is where a drain can find it; `LinkedMemory.SecondCancelSeenIff`, `LinkedMemory.SecondCancelCycles`, `LinkedMemory.SecondCancelInBoth`, `UndrainedCancel.FindsIff` and `UndrainedCancel.CancelsMissed` say what the code does otherwise.
- EventLoop.Loop.DestroyRequest: headers, sinks, plugin data and the pool are one step that removes the request's memory. The code then writes NULL to `request.pool` (`src/curl_event_request.c:430`); the wrapper was allocated from that pool (lines 158-165), so every destruction ends with a write to freed memory, which the model does not represent. It claims only that no freed request or node is read.
- EventLoop.Loop.ReleaseNode: asks that nobody is blocked on the node when its last reference goes; the code would free it and leave its waiters unreachable. Callers that drop only what they hold never do that (`OwnerRelease.DropExact`).
- EventLoop.Loop.DropReferenceTo: an auto-release owner does not drop the last reference it holds; `OwnerRelease` says what happens if it does.
- EventLoop.Loop.SetAutoReleaseOf: whoever switches it on holds a reference; `PublishSafety.PlaceholderPublishFaults` shows what may happen otherwise.
- EventLoop.Loop.MoveInactiveRequestsToQueue: of the cancels since the last drain, none is of a request that the scan may move; `UndrainedCancel.ScanFindsIff` says what happens to such a request.
- EventLoop.Loop.ProcessCompletedRequests: no message is about a request cancelled since the last drain (`UndrainedCancel.CompleteFindsIff`), and none makes the code call a missing `on_retry` (`MissingRetry`).
- EventLoop.Loop.DestroyLoop: reads the head of the cancelled list when it begins, where the code reads it after the multimaps; nobody cancels in between. If it gets past that list, it asks that every node with waiters is held; `Teardown.TeardownCompletes` says what happens otherwise.
- LoopTheorems.PinnedNodesLive: holds under the two rules on auto-release above; without them it is false, and `OwnerRelease.DestroyErasesPinnedIff` says exactly when.
- `curl_event_res_publish_str`, `get_str`, `peek`, `register`: thin wrappers over publish and lookup.
- Destroying the rate manager, its mutex and its one global instance.
- RateManager.Manager.CanProceed: double rounding is not modelled; tokens are reals.
- WorkerPool.DestroyCompletes: work functions are assumed to end, and nobody pushes after destroy was called.
- Backoff.ComputeBackoff: the generator behind `random`, rounding of doubles and overflow of very large delays.
- Download.Attempt.Receive: the write callback consumes all it is given.
- Memory orders weaker than sequential consistency in the inbox; threads created and joined in `worker_pool_init`.
- File and memory sinks, JSON helpers, header setters, browser profiles, HTTP/3 flags, plugins.
