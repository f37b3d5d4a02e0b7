# Tier 3 spending protocol: a verified model

A company's gateway lets partner agents place orders on their own, up to a weekly amount that a human granted
(Tier 3). An order inside the mandate reserves budget, is handed to an internal agent over a network that can lose,
delay or mangle, and is settled afterwards. An order above the mandate waits for a human. The agent routes each action
to one channel and must not run it twice. Budget is not a counter: it is a windowed sum over an audit log that is
pruned by age, capped per client and rewritten in place by settlement.

This project models that protocol and proves what it promises over every run. A smaller second part does the same for
the admin's catalog files, which are edited under a lock and replaced by one rename, with a crash possible anywhere.

## How it is built

| file | contents |
|---|---|
| `Common`, `Retention`, `Ledger`, `Resolutions`, `Queue`, `RateLimit` | the gateway's tables as values, with the theory of pruning: age, per-client cap, settlement |
| `Store` | `verify/main.py`'s `Store` as an object; each method is proved equal to the function the rest of the project reasons about |
| `Wire`, `Handoff` | bodies and envelopes, how each side checks them, and one handoff with its retry |
| `Gateway` | the handlers as a step relation; each step is one call on the store, so handlers interleave wherever they do not hold the lock |
| `GatewayInvariant`, `GatewaySteps` | what every reachable state satisfies, and that every step keeps it |
| `GatewayLifecycle`, `GatewayExits`, `GatewayMandate`, `GatewayTheorems` | the results about runs of the gateway |
| `GatewayAudit`, `GatewayPolls`, `GatewayEnvelope` | that what is written, polled and sent is true: events, resolutions and envelopes against the orders and decisions behind them |
| `GatewayDecisions`, `GatewayUpkeep` | what every request comes to: orders, approvals, rejections, sweeps, grants, settlements |
| `Playing`, `GatewayRuns` | runs played step by step on any of the machines, and one that spends a mandate twice |
| `GatewayLock`, `GatewayRevocation` | the lock is always released; what a revocation stops and exactly which orders still go on |
| `Routing`, `RuleFile` | rule table and LLM choice; what a rule file means, told by its raw JSON |
| `Agent`, `AgentOnce` | the agent's lock and result tables, its concurrent handlers and at-most-once |
| `AgentLimits`, `AgentRuns` | exactly what breaks at-most-once, and two runs that do |
| `EndToEnd`, `EndToEndRouting` | gateway, network and agent composed; the composition with the rule table |
| `EndToEndLoss` | three runs of the whole system in which executed work loses its reservation |
| `Catalog`, `CatalogRuns`, `CatalogEdits` | documents, file names and the catalog directories as an object; concurrent edits with failures and crashes; an edit left to itself |

The gateway's state carries a ghost `history`: every event ever recorded, settled together with the log but never
pruned. The central invariant is that the log the program keeps is that history pruned once, and that an action's stage
fixes its complete audit trail. Handlers' local variables live in the action's stage, or in `session` while the handler
holds `tier3_lock`.

`dafny verify dfyconfig.toml` checks everything.

## Where comments say more than the code

The model follows the code.

- `agent/main.py:153-155` says a lock is dropped too early only past the map's bound. Lines 156-157 drop the lock of
  every action that has not stored yet, whatever the bound. `AgentLimits.AtMostOnceIff` is the exact condition over
  runs; `AgentRuns.TwoActionsSuffice` and `AgentRuns.EvictionSuffices` are runs from the start, for every bound, in
  which an action is dispatched twice.
- `verify/agent_handoff.py:14-16` says "down" means not executed. A timed-out attempt whose retry is turned away is
  also "down", and so is a single attempt whose connection breaks after the agent dispatched (lines 87-96 report any
  such exception as "down"). `Handoff.ReleaseSafeIff` is the exact condition on the two attempts;
  `EndToEndLoss.LostRetryReleasesExecutedWork` and `EndToEndLoss.DroppedAnswerReleasesExecutedWork` run both patterns
  from the start of the composed system.
- `verify/main.py:984` says the budget of a "failed" action was not consumed. `agent/channels.py:29-43` answers any
  exception with "not executed", a timeout after delivery included (its docstring, lines 6-16, says so), so the channel
  may have the order. In this model "executed" means that a channel took the action, whether it said so or not. Such
  an answer names the channel, which the gateway can see: it is a disjunct of the condition of `Handoff.ReleaseSafeIff`
  and of what `EndToEnd.SpendAccounting` excludes, and `EndToEndLoss.UnheardChannelReleasesExecutedWork` runs it.
- `verify/main.py:335-336` says an action id matches one event. `GatewayLifecycle.TwoEventsIff` says exactly which
  actions have two: those that were queued and then approved or taken out of the queue. `Ledger.SettlePruned` and
  `GatewayTheorems.SettlementHitsReservation` show why searching newest first is right.
- `verify/main.py:299-300` says a client can evict only its own entries. That is proved, and
  `Ledger.EvictionUnderstatesUsage` shows that those can be its own accepted orders, so the usage read is then too low.
  `GatewayRuns.EvictionDoublesSpending` is a run, for every cap, in which a client spends its mandate twice;
  `Ledger.UsedExactIff` and `GatewayMandate.ReservationExceedsIff` are the exact conditions, and mandate safety carries
  its half as a hypothesis.
- `agent/rules.py:38-39` says unknown channels fail the boot. If "allowed_channels" is a JSON string, membership on
  line 68 is a substring test and a fallback that is not on the list passes (`Routing.StringAllowlistSlips`);
  `Routing.LoadedTablesAreSoundIff` is the exact condition.
- `verify/main.py:790` reads the grant before taking the lock, so an order can be queued or reserved after a revocation,
  although `verify/main.py:670-676` revokes so that nothing is executed for a client an admin just cut off.
  `GatewayRevocation.RevokedClientSpends` is a run in which a client without a grant reserves its whole limit.
  `GatewayRevocation.ReservedAfterRevocationIff` and `TakenOnAfterRevocationIff` are the exact conditions, to be read
  off the order before the revocation; `GatewayRevocation.NothingNewAfterRevocation` is what does hold of every run,
  and approval looks at the grant again (`GatewayLifecycle.ApprovedUnderGrant`).

## Model

| member | source | states |
|---|---|---|
| EndToEnd.SpendAccounting | verify/main.py:919-1023 | Over every run of gateway, network and agent, for an action of which no deciding report is doubtful and whose lock and result the agent keeps: work that a channel took, whether it said so or not, is still accepted in the full history, budget given back is never followed by a channel taking the action, and at most one decision is made |
| EndToEndLoss.LostRetryReleasesExecutedWork | verify/agent_handoff.py:136-143 | A run from the start, all reports honest, in which a timed-out attempt whose retry is refused ends with the budget of executed work given back |
| EndToEndLoss.DroppedAnswerReleasesExecutedWork | verify/agent_handoff.py:87-96 | A run from the start, all reports honest, in which a single attempt whose connection breaks after the dispatch ends the same way |
| EndToEndLoss.UnheardChannelReleasesExecutedWork | agent/channels.py:29-43 | A run from the start, all reports honest and the one attempt intact, in which a channel takes the order, is not heard, and the budget is given back |
| EndToEndRouting.SettledChannelIsAllowed | verify/main.py:944-951 | Under the same hypotheses, with every decision made by a sound rule table, the channel a settlement records is on the allowlist |
| EndToEndRouting.SettledChannelFollowsRules | agent/main.py:185-225 | Under the same hypotheses, with the agent routing by any file that loads, the channel a settlement records is the one to which the first rule in the file that covers the order's own amount leads |
| EndToEnd.ReportKeeps | verify/agent_handoff.py:132-147 | What the gateway concludes from a report agrees with what became of the action's requests |
| Handoff.ExecuteHandoff | verify/agent_handoff.py:132-147 | Two attempts at most; "down" exactly when the deciding attempt was refused, dropped or not 200; budget is released exactly on that and on a 200 whose body is an object for this action with status "failed" |
| Handoff.ConcludeIff | verify/agent_handoff.py:99-147 | For every attempt, on the raw body: exactly when the conclusion releases, when it is "executed", when it is "unknown" and when the code raises; a 200 that is no proper report never releases |
| Wire.ParsedIff | verify/agent_handoff.py:99-129 | A body is accepted if and only if it is an object with this action's id and status "failed", or "executed" with a channel, a known decider and a reference that is not empty; each field of the result quotes the body's text and nothing else; and exactly which bodies raise |
| Handoff.ReleaseSafeIff | verify/agent_handoff.py:10-24 | Releasing on the conclusion is safe in every world that explains the two attempts if and only if they are not doubtful: no "failed" that names a channel (which may have taken the action unheard), no retry turned away, no single attempt that failed without proving that nothing ran, and no "failed" from a retry if the agent has forgotten the first delivery |
| Handoff.IntactReplyIsUnderstood | verify/agent_handoff.py:144-147 | An intact 200 is never "unknown": the gateway learns what the agent did and releases exactly when nothing was done |
| Wire.ReplyRoundTrip | verify/agent_handoff.py:99-129 | Every body the agent can return is accepted and keeps status, channel, decider and reference |
| Wire.AcceptedForOneAction | verify/agent_handoff.py:110-111 | A body accepted for one action is accepted for no other |
| GatewaySteps.Reachable | verify/main.py:811-847 | In every reachable state, under any interleaving, log, queue, resolution map, grants and every action's stage agree as `GatewayInvariant.Inv` says |
| GatewaySteps.StepKeeps | verify/main.py:1125-1155 | Each of the 27 kinds of step, enabled in a state with the invariant, keeps it |
| GatewayMandate.MandateSafety | verify/main.py:811-822 | Whatever interleaves, a client's unreleased within-mandate reservations of the last window sum to at most the largest grant it was given, provided the cap hides no such reservation when an order reads its usage |
| GatewayMandate.MandateSafetyWithinCap | verify/main.py:290-322 | The same when the client's in-window events fit under the per-client cap |
| GatewayMandate.ReservationExceedsIff | verify/main.py:811-822 | In every reachable state, an order that reads its budget now is reserved beyond its limit if and only if it fits the usage the log shows and the cap has evicted more autonomous spending than the order would leave room for |
| GatewayRuns.EvictionDoublesSpending | verify/main.py:304-322 | For every cap and every limit, a run from the start in which a client with one grant reserves the whole limit twice, after as many over-mandate orders as the log holds rows |
| GatewayTheorems.LogRefinesHistory | verify/main.py:284-311 | In every reachable state the log holds, per client, exactly the newest `tier3_audit_max` events of the full history inside the window of the last prune, in original order |
| GatewayTheorems.UsageRefinesHistory | verify/main.py:313-322 | The usage read is the windowed sum over the full history less what the cap evicted; it equals the true sum if and only if no accepted event was evicted |
| GatewayTheorems.RecordingIsolatesClients | verify/main.py:290-311 | In every reachable log, recording for one client changes no other client's usage or in-window events |
| GatewayTheorems.SettlementHitsReservation | verify/main.py:324-343 | In every reachable state settling rewrites only the action's own accepted reservation, never its "queued" event, and nothing if the reservation was pruned |
| GatewayTheorems.SettlementReleasesBudget | verify/main.py:919-1023 | In every reachable state settlement gives the reservation back to its client exactly when the handoff's conclusion releases it, and changes no other client's usage |
| GatewayTheorems.QueueIsBounded | verify/main.py:828-833 | Every client has at most the configured number of pending actions, and ids in the queue are distinct |
| GatewayTheorems.RefusalCountsOnlyLiveEntries | verify/main.py:825-831 | An order is refused for a full queue only with exactly that many entries of the client, none of them overdue when the sweep began |
| GatewayTheorems.RevocationEmptiesQueue | verify/main.py:677-695 | When a revocation releases the lock nothing of that client is left to approve; what can still be reserved or queued afterwards is the subject of the four rows that follow |
| GatewayRevocation.NothingNewAfterRevocation | verify/main.py:790-799 | Over every run, after a revocation and until the next grant the client holds none, and every action of the client was already there when the revocation began |
| GatewayRevocation.ReservedAfterRevocationIff | verify/main.py:790-822 | In every reachable state in which a revocation can begin, an action of the client can be newly reserved after it, without another grant, if and only if it has read its grant, has not yet reached the lock, and its amount is within the limit it read |
| GatewayRevocation.TakenOnAfterRevocationIff | verify/main.py:790-847 | Likewise it can be newly reserved or queued if and only if it has read its grant, has not yet reached the lock, and fits its limit or the queue holds anything at all |
| GatewayRevocation.RevokedClientSpends | verify/main.py:790-822 | A run from the start, for every limit, that ends with a client without a grant having reserved all of it without a human |
| GatewayLock.LockHoldersFinish | verify/main.py:811-847 | In every run, from whatever step takes `tier3_lock`, the holder's own steps free it again: at most six for each queue entry, and five more |
| GatewayLock.LockHolderMoves | verify/main.py:1125-1155 | Whoever holds the lock has an enabled step, and taking it brings the release nearer |
| GatewayTheorems.ResolutionsAreBounded | verify/main.py:416-425 | The resolution map keeps one entry per action, at most the cap per client, under the client that ordered it |
| GatewayTheorems.OutcomeIsPolled | verify/main.py:919-1023 | When a handoff is settled the client's poll shows executed, failed or unknown as concluded, and the agent's reference if executed |
| GatewayEnvelope.EnvelopeTellsTruth | verify/main.py:892-916 | Over every run the envelope of an action in flight carries the item, quantity, amount and client of the order that arrived; it names no human and states the grant read on arrival and the usage read under the lock that reserved it, or names the admin and states the grant read as the entry was taken out and the usage just before its own reservation |
| GatewayEnvelope.HumanIsNamedIff | verify/main.py:1157-1160 | It names a human if and only if an approval took the action out of the queue before |
| GatewayTheorems.RequestsAreBounded | verify/main.py:629-639 | In every reachable state every order and every grant is within the bounds of the request models |
| Wire.AcceptedIsBounded | agent/main.py:99-128 | Whoever sends it, an envelope out of bounds is refused before anything is dispatched |
| GatewayTheorems.EnvelopeIsAccepted | verify/main.py:892-916 | Every envelope that can be sent, for an order or an approval, passes the agent's bounds if and only if the two ids have the accepted lengths; usage above the limit is no obstacle |
| GatewayDecisions.RejectionTakesEffect | verify/main.py:1167-1187 | In every run, whatever interleaves: an entry queued and live when it is rejected is, when the lock is next free, out of the queue, with exactly the events "queued" and "rejected by human" for its order, and polls "rejected" |
| GatewayDecisions.ApprovalTakesEffect | verify/main.py:1122-1155 | Likewise for an approval: reserved for the order's full amount in a human's name if the client held a grant when it began; refused for its reason, audited and polled as "rejected" if it held none and got none meanwhile |
| GatewayDecisions.OrderIsDecided | verify/main.py:811-847 | What an order comes to when the lock is next free: reserved on its own if and only if the usage it read leaves room; otherwise queued as the newest entry behind fewer than the bound, to expire one TTL later, and polled "queued"; otherwise refused with that many entries of its client queued |
| GatewayDecisions.EveryRequestIsServed | verify/main.py:1122-1187 | From every reachable state with the lock free each of these can start, and the lock holder's own steps alone bring it to that end |
| GatewayUpkeep.SweepClearsExactly | verify/main.py:345-367 | Whichever request begins a sweep, when it is through the queue holds exactly the entries whose `expires_at` had not passed at its beginning, and each other one has the events "queued" and "expired" |
| GatewayUpkeep.RefusalIsWritten | verify/main.py:849-866 | An order that found the queue full can always be turned away, and its one event says why |
| GatewayUpkeep.GrantsFollowTheAdmin | verify/main.py:655-677 | In every step of every run a client's grant is what the admin put, is gone if its own was revoked, and does not change otherwise |
| GatewayUpkeep.RequestsCanStart | verify/main.py:629-677 | In every state an order within bounds from a client with a grant can arrive and a grant within bounds be put, and when the lock is free a revocation or a sweep can begin |
| GatewayUpkeep.HandoffIsSettled | verify/main.py:919-1023 | From every reachable state a handoff that returns is settled by its handler's own steps, whoever holds the lock, and polls what the result says, channel and order number included |
| GatewayAudit.EventsTellTruth | verify/main.py:260-343 | In every reachable state every event is a denial or names the client, item and amount of the order it belongs to, with the reason and the order number that what became of that order justifies |
| GatewayAudit.EventsOfAction | verify/main.py:260-343 | An action has exactly the events of its stage, each of them true in this sense |
| GatewayAudit.DenialsAreAudited | verify/main.py:752-798 | Over every run each caller turned away is audited at once with its reason, under its own name if that is known, and nothing is reserved or queued for it |
| GatewayAudit.BudgetMoves | verify/main.py:313-343 | Conservation: over every run the usage over the full history moves, apart from the clock, only by a reservation, which adds exactly its order's amount whether a human approved it or not, and by a releasing settlement, which takes exactly that amount off |
| GatewayPolls.PollTellsTruth | verify/main.py:427-434 | In every reachable state a poll shows an entry only under the client that ordered, only within the TTL, and with exactly the status, channel and order number that what became of the order justifies |
| GatewayPolls.PollDropsStale | verify/main.py:427-434 | A poll drops the polled entry if it is stale, and nothing else |
| GatewayLifecycle.RunAdvances | verify/main.py:1110-1164 | Over any run each action only moves forward through its stages and keeps its order's data |
| GatewayLifecycle.FateIsFinal | verify/main.py:1125-1127 | Once an action has left the queue its fate never changes and it is never queued again |
| GatewayExits.LeavingHasCause | verify/main.py:1125-1187 | Over any run an action leaves the queue for the reason its fate says: overdue when the running sweep began, its own client's revocation, an approval that finds no grant, an approval that finds one, or its own rejection |
| GatewayExits.IntentWasAsked | verify/main.py:669-680 | An approval, rejection or revocation in progress was requested by an earlier step and has been served without a break since |
| GatewayExits.RevocationSparesOthers | verify/main.py:677-695 | From its request to its end a revocation leaves every other client's live entries in the queue |
| GatewayLifecycle.LeavesOnce | verify/main.py:1122-1124 | Over any run an action leaves the queue at most once |
| GatewayLifecycle.OneReservation | verify/main.py:1147-1155 | At most one reservation is ever recorded for an action, and a queued one has it only if it was approved |
| GatewayLifecycle.ExitIsAuditedOnce | verify/main.py:352-367 | An action that left the queue unapproved has exactly two audit events, "queued" and the one for its exit ("expired" for the timeout, "rejected" otherwise), and its resolution says the same |
| GatewayLifecycle.TwoEventsIff | verify/main.py:335-336 | In every reachable state an action has at most two audit events, and two exactly when it was queued and then approved and reserved or taken out of the queue and noted |
| GatewayLifecycle.EnvelopeCoversOrder | verify/main.py:812-813 | Over every run an order sent without a human's approval fits in the remainder its envelope states |
| GatewayLifecycle.ApprovedUnderGrant | verify/main.py:1130-1146 | Whatever was approved was approved in a step that saw the client's grant |
| GatewayLifecycle.DoneStaysDone | verify/main.py:919-1023 | The audit trail of a finished action never changes again |
| GatewayLifecycle.FinalStatusIsFinal | verify/main.py:394-403 | A final resolution is never overwritten: as long as it is shown it is the same |
| GatewayLifecycle.QueuedResolutionIsLive | verify/main.py:842-847 | A "queued" resolution belongs to a pending action or to one between its pop and its settlement |
| GatewayLifecycle.PendingIsUndecided | verify/main.py:1125-1155 | A pending action has no reservation, and its resolution, if present, is "queued" |
| Retention.PruneIncrementally | verify/main.py:284-311 | Pruning after every append gives what one pruning pass over the whole history gives |
| Retention.PrunedOf | verify/main.py:288-311 | Age filter, reversed counting scan and reversal keep for each client a suffix: its newest in-window rows |
| Retention.AgeCommutesWithCap | verify/main.py:284-311 | In time order, capping first and ageing afterwards is the same as the reverse |
| Retention.PrunedSubsequence | verify/main.py:304-311 | Pruning keeps the original order |
| Ledger.SettlePruned | verify/main.py:324-343 | Settling the pruned log is pruning the settled history |
| Ledger.SettleTrail | verify/main.py:337-343 | Settling rewrites the last event in the action's own trail and touches no other trail |
| Ledger.UsedAgainstHistory | verify/main.py:313-322 | The log understates the full-history sum by exactly the accepted amounts evicted, whatever cutoff it was pruned with |
| Ledger.UsedExactIff | verify/main.py:284-322 | The log's usage is exact if and only if no accepted event of the window has been evicted |
| Ledger.EvictionUnderstatesUsage | verify/main.py:304-311 | A concrete log in which a later event of the same client evicts an accepted one and usage drops to zero |
| Ledger.RecordIsolatesClients | verify/main.py:290-311 | Recording for one client changes neither another client's in-window events nor its usage |
| Ledger.UsedCoversAutonomous | verify/main.py:813 | The usage an order reads covers what the client's own orders have reserved, as long as no such reservation was evicted |
| Resolutions.InsertIsBounded | verify/main.py:404-425 | A new id drops only stale entries and the inserting client's oldest beyond the cap; other clients lose only stale entries |
| Resolutions.InsertKeepsOrder | verify/main.py:416-425 | The double reversal preserves insertion order |
| Resolutions.UpdateStaysInPlace | verify/main.py:394-403 | Updating an existing id moves nothing and changes no other entry, no owner and no creation time |
| Resolutions.PutThenGet | verify/main.py:383-434 | What was written for an id is what is read, under its original owner and creation time, until the TTL has passed since the write; a channel or order number that the write leaves out stays |
| Resolutions.GetIff | verify/main.py:427-434 | A lookup shows an entry if and only if it is there and its last write is no more than one TTL old; a staler one goes, and nothing else does |
| Resolutions.BoundsAreKept | verify/main.py:394-434 | Writing and reading both keep the per-client bound; reading only removes |
| RateLimit.SlidingWindow | verify/main.py:213-219 | In any half-open interval one window long at most `max` calls of a bucket and address are allowed |
| RateLimit.AllowedIff | verify/main.py:216-219 | A call is allowed if and only if fewer than `max` calls of its bucket and address, refused ones included, fall in the window before it |
| RateLimit.ListCountsCalls | verify/main.py:216-218 | Although each call prunes, the stored list still counts every call of the current window |
| RateLimit.KeysAreDistinct | verify/main.py:215 | Bucket names without a colon never share a key |
| StoreObject.KeepNewestPerClient | verify/main.py:304-311 | The reversed scan with its counter dictionary keeps exactly the rows that have fewer than `cap` newer rows of their client |
| StoreObject.Store.RecordTier3Event | verify/main.py:260-311 | The log afterwards is the specification's: appended, aged, capped per client |
| StoreObject.Store.Tier3UsedCents | verify/main.py:313-322 | The loop returns the windowed sum of the client's accepted amounts |
| StoreObject.Store.SettleTier3Event | verify/main.py:324-343 | The backward search rewrites the newest event of the id and nothing else |
| StoreObject.Store.QueueTier3Action | verify/main.py:369-381 | The entry expires one TTL from now and, for a new id, goes to the end of the queue |
| StoreObject.Store.SetTier3Resolution | verify/main.py:383-425 | The map afterwards is the specification's, for an existing and for a new id |
| StoreObject.Store.GetTier3Resolution | verify/main.py:427-434 | A stale entry is dropped and not returned; anything else is returned unchanged |
| StoreObject.Store.PruneTier3Pending | verify/main.py:345-367 | The sweep loop pops, audits and resolves every overdue entry once, in queue order, and leaves exactly the live ones |
| StoreObject.Store.CheckRateLimit | verify/main.py:213-219 | Table and verdict are those of the limiter's step |
| StoreObject.SweepLeavesLive | verify/main.py:351-353 | The sweep removes exactly the overdue entries and keeps the rest in order |
| StoreObject.RoundIsThreeSteps | verify/main.py:352-367 | One round of the sweep loop is the state machine's pop, note and resolve |
| AgentOnce.AtMostOnce | agent/main.py:143-186 | Over every interleaving of requests, with no other action storing while this one is in flight and fewer later stores than the map's bound, an action is decided at most once and every caller gets that decision |
| AgentLimits.AtMostOnceIff | agent/main.py:143-186 | Over runs: an action's own requests could from some point decide it twice by themselves if and only if the run contains a harmful step, that is another action storing while this one is in flight without a result or while its result is the oldest that fits |
| AgentLimits.HarmfulIff | agent/main.py:145-157 | Step by step, from a state that remembers the action, the harmful steps are exactly those after which its own requests can decide it twice |
| AgentLimits.UncalmDoubles | agent/main.py:156-157 | The hypothesis of end-to-end accounting is no stronger than it must be: after any step that violates it the action's own requests can decide it twice |
| AgentRuns.TwoActionsSuffice | agent/main.py:149-157 | A run from the start, for every bound, in which two actions suffice for a double dispatch |
| AgentRuns.EvictionSuffices | agent/main.py:145-148 | A run from the start, for every bound, in which actions served one after the other drive a result out and a late retry dispatches again |
| AgentOnce.InsertKeeps | agent/main.py:145-148 | Storing one action changes no other action's result except by evicting it |
| AgentOnce.StepKeeps | agent/main.py:182-186 | Locks exclude and all bookkeeping about an action agrees with its one decision after every calm step |
| Agent.Registry.ActionLock | agent/main.py:90-96 | One lock object per id, made on first use, the same afterwards |
| Agent.Registry.StoreResult | agent/main.py:143-158 | The map keeps its newest entries up to the bound, and exactly the locks of ids in the map survive |
| Agent.Registry.LogDecision | agent/main.py:137-140 | The decision log keeps its newest entries up to the bound |
| Agent.DropOldest | agent/main.py:146-148 | Deleting the oldest entries one by one leaves the newest up to the bound, and all of them when they fit |
| Routing.LoadedTablesAreSoundIff | agent/rules.py:48-75 | For any JSON file that survives loading, every channel the table can lead to is on its allowlist if and only if the allowlist is not a string with a fallback longer or shorter than one letter |
| Routing.StringAllowlistSlips | agent/rules.py:51-70 | Such a file: it loads, and without an LLM an order is sent to a name the allowlist does not hold |
| RuleFile.FileDecidesIff | agent/rules.py:82-106 | For every file that loads, every answer of the LLM and every channel: an action is sent there, and only there, if and only if the first rule in the raw file of its type without a smaller ceiling leads there |
| RuleFile.FirstRuleIff | agent/rules.py:82-90 | The rule found is the first in the raw file of this type that has no `max_amount_cents` or one that is at least the amount |
| RuleFile.LoadsIff | agent/rules.py:48-75 | Exactly which JSON files survive loading |
| RuleFile.ShippedFileDecides | agent/rules.json:1-7 | The file as shipped loads; orders up to 20000 go to the ERP, larger ones where a configured LLM says among the three channels, and to the ERP without one |
| Routing.MatchIsFirst | agent/rules.py:82-90 | The index is that of a rule of this type whose ceiling, if any, is at least the amount, with no such rule before it, and none only if there is none |
| Routing.MatchIsMonotone | agent/rules.py:82-106 | If an amount is matched every smaller amount is, by the same rule or an earlier one |
| Routing.ValidateIff | agent/llm.py:75-88 | A model's text chooses a channel if and only if it is the object with that one key and an allowed name |
| Routing.RoutingIsClosed | agent/main.py:193-225 | Whatever the LLM says, a dispatched channel is allowed, the LLM decides only where a rule delegates to a configured one, and the fallback applies only where none is configured |
| Routing.RoutingDecidesIff | agent/main.py:193-225 | A channel is dispatched to if and only if the first matching rule names it, or delegates with no LLM configured and it is the fallback, or delegates to a configured LLM whose text names it and it is allowed |
| Routing.DispatchIff | agent/main.py:193-283 | An action is sent to the channel its first matching rule leads to, once, and to no other; to none if it leads to none, and then the reply says "failed"; "executed" means the channel it was sent to said it took it, and one that took it unheard is answered "failed" |
| Routing.AgentBodyRoundTrip | agent/main.py:227-283 | For any rule table, text and channel outcome, the body returned is understood by the gateway field by field |
| Catalog.AddsAccumulate | admin/catalog_store.py:115-120 | Additions never fail and never displace one another |
| Catalog.ApplyChangesOneItem | admin/catalog_store.py:123-138 | Updating and deleting act on one position, Python's negative indices included, fail exactly outside it and leave everything else |
| Catalog.Directories.AtomicWrite | admin/catalog_store.py:47-68 | With a failure at any system call the target is the new complete readable document or every file is as before, but for the temporary file if removing it is refused as well |
| Catalog.Directories.AddItem | admin/catalog_store.py:115-120 | Succeeds unless a call fails; then the file is the edited document, otherwise no file has changed but for a leftover |
| Catalog.Directories.UpdateItem | admin/catalog_store.py:123-129 | The same, and a bad index writes nothing |
| Catalog.Directories.DeleteItem | admin/catalog_store.py:132-138 | The same for deletion |
| Catalog.StalePattern | admin/catalog_store.py:90 | The cleanup's pattern matches exactly the names that begin with a dot and end in ".tmp" |
| Catalog.PatternTellsTempsFromTargets | admin/catalog_store.py:52 | Every temporary file's name matches it, and no target's name does |
| Catalog.Directories.CleanupStaleTempFiles | admin/catalog_store.py:85-94 | The cleanup removes exactly the matching names in its two directories, but for refused ones, and changes no other file |
| CatalogEdits.EditIsServed | admin/catalog_store.py:47-138 | From any point of any run a call that finds its lock free and is left to itself returns normally if and only if the file is there and the edit applies; the file is then the edited document, and otherwise nothing has changed |
| CatalogRuns.FilesAreReplays | admin/catalog_store.py:35-94 | For any interleaving of edits with failures and crashes anywhere, each file is complete, readable and the replay, in lock order, of exactly the edits whose rename happened |
| CatalogRuns.SuccessIsCommitted | admin/catalog_store.py:115-138 | A call that returns normally is in the replay and one that raised is not |
| CatalogRuns.RestartLeavesNoTemps | admin/catalog_store.py:71-97 | Over any run of edits, failures and crashes, a restart without a refused removal ends with exactly the files of the start that do not look stale: no temporary file is left and no target or other file is gone |
| CatalogRuns.OnlyCrashesLitter | admin/catalog_store.py:66-68 | From a moment without stale files on, without a crash or a refused unlink every temporary file belongs to a write under way |

## Left out

- Atomicity: each call of `record_tier3_event`, `settle_tier3_event`, `set_tier3_resolution`, `get_tier3_resolution` and `check_rate_limit` is one step, although the last two and some calls of the others run outside `tier3_lock` (`verify/main.py:752, 792, 853, 938, 944`). An approval's usage read and its record are one step too, although an unlocked settlement can fall between them; the usage read there only fills the envelope.
- Rate limits: `RateLimit` is not composed with the handlers. `GatewayRuns.EvictionDoublesSpending` places its orders at one instant; at the default ten calls a minute the same orders take under an hour for the default cap (`verify/main.py:145-149` says the same), inside a window of a week.
- Fresh ids: an arriving order gets an id no action has; the minted form of the id is not modelled beyond its 1 to 64 characters.
- StoreObject.Store.PruneTier3Pending: one clock reading for the whole sweep; the state machine lets the clock move between rounds.
- StoreObject.Store.SettleTier3Event: events are values in a sequence, so the aliasing of event objects between the old and the new list is not visible.
- EndToEnd.SpendAccounting: that a 4xx answer ran nothing is a hypothesis taken from `agent/main.py:166-175`, and a restart of the agent, which empties its map, is not among its steps; `Handoff.ReleaseSafeIff` covers an agent that forgets.
- Time is a real number given to each step and never runs backwards; float rounding is not modelled.
- A body that is not JSON is the absent body; the JSON text format itself is not modelled. A 200 body with an unhashable status or decider raises in the code, and the model's handler then stops with its reservation standing.
- `_post_action` is any report, including one that contradicts the agent unless a theorem's hypotheses say otherwise; an exception raised while reading an error body is not modelled.
- HTTP, authentication, token introspection, mTLS and response bodies: inputs that are a client id or a refusal. The unlocked read at `verify/main.py:873` is presentation. A refusal for a missing grant may be recorded in any state.
- The resolutions' `detail` texts and the contents of the agent's decision log.
- `list_tier3_approvals` and the poll handler appear as a sweep and a lookup; what they return is not modelled.
- Rule files: a file that is not JSON fails the boot before the model begins.
- `fallback_channel` could name "llm" if that name were itself an allowed channel; the model allows it as the loader does.
- Tier 1 challenges and sessions, `update_manifest` and its form handling, and the REST clients: they would add only easy members.
