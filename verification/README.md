# Effect custody, verified

The repository keeps a family of durable protocols that guard effects outside the process: realtime sessions, device
capabilities, model requests, encrypted payloads, OAuth tokens, identities, account sessions and the Bluetooth link of the
glasses. Each is a handful of tables updated by atomic transactions. Slow and unreliable provider calls run between those
transactions, in worker threads that may end after their caller has given up, crashed or been revoked.

This project models them as step machines. Tables are maps and sequences; every transaction is one function from tables to
tables, and a transaction that raises leaves the tables as they were (`DurableDatabase.transaction`,
services/control_plane/durable_state.py:69-79). The places that commit before they raise do change the state. Clock readings,
provider answers, generated identifiers, interleavings and crashes are arbitrary. A run is any sequence of steps, and each
main theorem speaks of every run. Beside each protocol stands a class with the tables as fields and one method for a
transaction, written statement by statement with its rollbacks and loops, and proved equal to the function.

| files | protocol |
|---|---|
| `realtime_*.dfy` | realtime activation: tickets, one-shot sessions, attempts, revoke outbox, persistent budgets |
| `bounded_calls.dfy` | the permit protocol between the caller and the worker thread of one bounded call |
| `capability_*.dfy` | capability execution: reserve then dispatch, leases, event log, conflicts, emergency suspension |
| `model_*.dfy`, `json_bounds.dfy` | model gateway: claims, readbacks, quotas, tombstones, monotone clock; the JSON bound checkers |
| `payload_*.dfy`, `sealing.dfy` | encrypted payload custody and re-encryption |
| `oauth_*.dfy` | OAuth states, refresh-token generations and the revocation outbox |
| `identity_*.dfy` | identity tombstones and the admission of tokens |
| `account_*.dfy` | account sessions, tokens, pairs and device replacement |
| `glasses_*.dfy`, `bluetooth_manager.dfy` | connection attempts, the retired-connection barrier and deferred activation |

SHA-256 is taken as injective, so a digest is represented by what it digests; generated identifiers are parameters, taken as
new where a theorem needs it. Where the code and its comments differ the code is followed.

What the proofs found:

- The states `expired` of account sessions, tokens and pairs, `denied` after a payload's deadline, and `expired` of an OAuth
  state at completion are written and then rolled back by the failure that follows. `AccountTheorems.AuthorityHangsTogether`
  and `PayloadTheorems.ExpiryLeavesNoTrace` show what can be in the database instead.
- A queued OAuth revocation is not always deliverable. `OAuthTheorems.DeliverableIff` gives the exact condition: the entry's
  token and scopes are still those of the credential's row. A refresh that replaces the token strands the old one, and a
  refresh that returns the same token queues the live one (`OAuthTheorems.RotatedIsNot`). `OAuthWitness.UndeliverableIsReached`
  gives a run that gets there.
- Several integrity errors are unreachable: `realtime_cleanup_binding_invalid`, `realtime_attempt_ticket_invalid`,
  `realtime_attempt_missing`, and the decryption and digest failures of the payload store under a lawful cipher.
- The long final checks of identity tokens, account bearers and pairs each come down to one row
  (`IdentityTheorems.AdmissionIsOneRow`, `AccountTheorems.AccessIsOneRow`, `AccountTheorems.PairIsOneRow`).

## Model

| member | source | states |
|---|---|---|
| RealtimeTheorems.ExclusiveRemoteOwnership | services/control_plane/realtime_provider_binding.py:55-78 | in every reachable state a provider session is claimed by at most one local session over sessions and outbox together, each job key is the one its row dictates, and reopening the store finds its records sound |
| RealtimeTheorems.JobTextInjective | services/control_plane/durable_realtime.py:329-352 | the text keys `provider:` and `lookup:` of different jobs never collide |
| RealtimeTheorems.CleanupBindingAlwaysHolds | services/control_plane/durable_realtime.py:329-352 | queueing a revocation never meets a job bound to another session, for any session and remote id |
| RealtimeTheorems.CleanupCustody | services/control_plane/durable_realtime.py:159-169 | a revoked session with an attempt always has an outbox job, its stored remote id its own job; lookups exist only for revoked sessions; a completed job was acknowledged by the provider |
| RealtimeTheorems.ClaimsBounded | services/control_plane/durable_realtime.py:354-440 | a session becomes answerable for at most 1 + L remote sessions, one for each call that reported one |
| RealtimeTheorems.RemoteTrafficBound | services/control_plane/realtime_recovery.py:61-70 | over any run the provider calls made for one session never exceed 1 + L + (1 + L)·R |
| RealtimeTheorems.DispatchedAtMostOnce | services/control_plane/durable_realtime.py:212-266 | no session is dispatched twice and no paid provider call is made twice |
| RealtimeTheorems.AttemptsAndTickets | services/control_plane/durable_realtime.py:149-157 | an attempt exists exactly when one consumed ticket does; at most one issued ticket, and only for a new session |
| RealtimeTheorems.IntegrityErrorsUnreachable | services/control_plane/durable_realtime.py:149-175 | no transaction of any run reports records that disagree |
| RealtimeTheorems.ResultsNeverCorrupt | services/control_plane/durable_realtime.py:354-440 | nor does committing a result still awaited, or completing a cleanup |
| RealtimeTheorems.RunForward | services/control_plane/durable_realtime.py:212-318 | states only move forward, generations never fall, cleanup jobs are never lost or rebound, completed ones never reopened, counters never refunded, over every run |
| RealtimeTheorems.RevocationIsFinal | services/control_plane/durable_realtime.py:464-495 | after a revocation the session stays revoked and is never dispatched again |
| RealtimeTheorems.RevokeLands | services/control_plane/durable_realtime.py:464-495 | revoke always ends with the session revoked, in any reachable state that knows it |
| RealtimeTheorems.ReopeningIff | services/control_plane/durable_realtime.py:45-106 | in every reachable state a store reopens exactly under a sound configuration that is the persisted one and under its own provider binding; its recovery counters are never the reason it does not |
| RealtimeAnswers.ResultDecides | services/control_plane/durable_realtime.py:354-440 | an on-time result of the session's own attempt is admitted exactly when its identity is nobody else's and not another than stored, its one spent ticket's window is open at both readings and the adapter still fits; the row then holds the result's remote id and receipt in its old generation, and every other table is what it was |
| RealtimeAnswers.SameResultAgain | services/control_plane/durable_realtime.py:376-390 | the identical result committed again in time leaves the session active and the tables as they were |
| RealtimeAnswers.ConflictLands | services/control_plane/durable_realtime.py:362-375 | another identity, or one that is another session's, denies the session, closes its tickets and leaves every remote session known of it to clean up |
| RealtimeAnswers.LateResultLands | services/control_plane/durable_realtime.py:391-440 | a result outside its window leaves the session indeterminate if only the deadline was missed, else revoked with its cleanup queued; the error is that of the first reading that was out |
| RealtimeAnswers.StaleResultLands | services/control_plane/durable_realtime.py:376-440 | a result of no current attempt changes no row and queues its remote session to clean up |
| RealtimeAnswers.ActiveStory | services/control_plane/durable_realtime.py:178-440 | over every run an active session has a ticket that was issued to its subject for it, spent in its window on its one attempt, and a result admitted in that window whose identity is the one it has |
| RealtimeAnswers.TicketStory | services/control_plane/durable_realtime.py:178-243 | every ticket was issued by one step with its expiry, and every spent one was spent in time by another, on a new session of the same subject |
| RealtimeAnswers.IssueDecides | services/control_plane/durable_realtime.py:178-210 | a ticket is issued exactly for a new session or its own subject's, with room and in its own window; it supersedes the one before and changes nothing else |
| RealtimeAnswers.ActivateDecides | services/control_plane/durable_realtime.py:212-243 | an attempt begins exactly with the session's own issued ticket before it expires; the ticket is spent and every other superseded |
| RealtimeAnswers.ActivateRefusals | services/control_plane/durable_realtime.py:212-243 | each error of it is true of the ticket, the rows or the clock |
| RealtimeAnswers.DispatchIff | services/control_plane/durable_realtime.py:244-254 | a worker calls the provider exactly for its session's own attempt within its spent ticket's window |
| RealtimeAnswers.QueueDecides | services/control_plane/durable_realtime.py:329-352 | custody of a remote session is its own job when it is nobody else's, else the session's lookup; a job that is there must be the session's, a known one is not reopened, a new one has its whole budget |
| RealtimeAnswers.GiveUpLands | services/control_plane/durable_realtime.py:267-274 | an attempt given up stays indeterminate while its ticket runs, and is denied with its cleanup queued after it |
| RealtimeAnswers.ReconcileLands | services/control_plane/durable_realtime.py:276-305 | a lookup first denies a session whose time has passed, then is paid for exactly while budget is left |
| RealtimeAnswers.ReconcileAtOnce | services/control_plane/durable_realtime.py:276-289 | an active session, or one revoked before it dispatched, answers at once and changes nothing |
| RealtimeAnswers.InterruptDecides | services/control_plane/durable_realtime.py:442-452 | an interruption moves exactly an active session of that generation to the next |
| RealtimeAnswers.RevokeDenies | services/control_plane/durable_realtime.py:464-495 | a revocation denies the session and its issued tickets and leaves what it may have opened to clean up, touching no other session |
| RealtimeAnswers.DrainDecides | services/control_plane/durable_realtime.py:497-513 | a cleanup is attempted exactly for a pending known job of nobody else's with budget left, and costs one unit |
| RealtimeAnswers.ReopenDecides | services/control_plane/durable_realtime.py:45-106 | in any state a store opens exactly under a sound configuration equal to the persisted one, with one counter within its limit for each session and known job |
| RealtimeRuns.NextKeeps | services/control_plane/durable_realtime.py:178-560 | each step of callers, workers, recoverers and crashes keeps the whole invariant |
| RealtimeTransactions.CommitActivationKeeps | services/control_plane/durable_realtime.py:354-440 | each of the branches that decide ownership, conflict, expiry and cleanup leaves a valid, later state that claims at most the observed session |
| RealtimeTransactions.ExpirePendingKeeps | services/control_plane/durable_realtime.py:159-169 | expiry revokes the session and leaves its cleanup in custody |
| RealtimeTransactions.GiveUpKeeps | services/control_plane/durable_realtime.py:267-274 | marking an attempt indeterminate keeps the store valid |
| RealtimeTransactions.IssueTicketKeeps | services/control_plane/durable_realtime.py:178-210 | issuing a ticket keeps the store valid |
| RealtimeTransactions.BeginActivateKeeps | services/control_plane/durable_realtime.py:212-243 | consuming a ticket and reserving the attempt keeps the store valid |
| RealtimeTransactions.BeginReconcileKeeps | services/control_plane/durable_realtime.py:276-305 | reserving a paid lookup keeps the store valid, also where the denial commits before the failure |
| RealtimeTransactions.FinishDrainKeeps | services/control_plane/durable_realtime.py:524-539 | completing an acknowledged cleanup changes that job alone |
| RealtimeProgress.QueueAllKeeps | services/control_plane/durable_realtime.py:416-431 | after a refusal every remote session it knows of is under custody, as its own job or as a pending lookup |
| RealtimeStore.DurableRealtimeStore.Reopen | services/control_plane/durable_realtime.py:45-106 | the checks made of a store that exists name the fault the model names, configuration, limits, counters and binding in that order |
| RealtimeStore.DurableRealtimeStore.Queue | services/control_plane/durable_realtime.py:329-352 | the statements compute the model's queueing |
| RealtimeStore.DurableRealtimeStore.TakeCustody | services/control_plane/durable_realtime.py:416-431 | the loop over identities computes the model's custody of all of them |
| RealtimeStore.DurableRealtimeStore.IssueTicket | services/control_plane/durable_realtime.py:178-210 | the transaction computes the model's, with the rollback of each failure |
| RealtimeStore.DurableRealtimeStore.Activate | services/control_plane/durable_realtime.py:212-243 | the same for the activation reservation |
| RealtimeStore.DurableRealtimeStore.Indeterminate | services/control_plane/durable_realtime.py:267-274 | the same for marking an attempt indeterminate |
| RealtimeStore.DurableRealtimeStore.Reconcile | services/control_plane/durable_realtime.py:276-305 | the same for the lookup reservation |
| RealtimeStore.DurableRealtimeStore.Commit | services/control_plane/durable_realtime.py:354-440 | the same for the commit of a result |
| RealtimeStore.DurableRealtimeStore.Interrupt | services/control_plane/durable_realtime.py:442-452 | the same for an interruption |
| RealtimeStore.DurableRealtimeStore.Revoke | services/control_plane/durable_realtime.py:464-495 | the same for the local denial of a revocation |
| RealtimeStore.DurableRealtimeStore.Drain | services/control_plane/durable_realtime.py:497-513 | the same for reserving a remote revocation |
| RealtimeStore.DurableRealtimeStore.Finish | services/control_plane/durable_realtime.py:524-539 | the same for completing it |
| BoundedCalls.PermitsConserved | services/control_plane/bounded_calls.py:25-59 | free permits and unreleased acquisitions always add up to the maximum, so at most that many operations run |
| BoundedCalls.OutcomeReadable | services/control_plane/bounded_calls.py:55-59 | the event is set only after one outcome is recorded and the one permit is back, so reading the outcome is safe |
| BoundedCalls.OutcomeMeaning | services/control_plane/bounded_calls.py:30-59 | not started means no run; a value or an error means one finished run |
| BoundedCalls.OutcomeIsFinal | services/control_plane/bounded_calls.py:30-59 | and that stays true: an operation reported as not started never runs later |
| BoundedCalls.OutcomeStory | services/control_plane/bounded_calls.py:30-59 | over every run the outcome a caller gets is the one that came about for its own call: the very value or error its operation ended with, a refusal, a thread that did not start or found itself late, or its patience ending |
| BoundedCalls.NextKeeps | services/control_plane/bounded_calls.py:30-59 | every action of caller or worker keeps the permit invariant |
| BoundedCalls.CallPool.Admit | services/control_plane/bounded_calls.py:30-35 | admission takes a permit or refuses, as the step machine says |
| BoundedCalls.CallPool.Start | services/control_plane/bounded_calls.py:52-56 | a thread that does not start gives its permit back |
| BoundedCalls.CallPool.Wait | services/control_plane/bounded_calls.py:57-59 | the caller reads the outcome or times out |
| CapabilityTheorems.HonestReceipts | services/control_plane/durable_capabilities.py:251-260 | an operation whose receipt says no effect may have occurred has a bound terminal not-applied observation, or its adapter was never called, then or in any later run; a succeeded one has a bound terminal applied observation |
| CapabilityTheorems.AtMostOneEffect | services/control_plane/durable_capabilities.py:302-347 | over every run a mutation is asked for at most once for a key and once for a lease, after a check that saw the row dispatching, nothing suspended or revoked, and the clock before both deadlines |
| CapabilityTheorems.LateWorkerTurnedAway | services/control_plane/durable_capabilities.py:302-316 | a worker that reaches its check after the row was closed never calls the adapter, in any later run |
| CapabilityTheorems.TableIsProjection | services/control_plane/durable_capabilities.py:349-354 | the operations table is what replaying the event log gives, and its sequence fields point at the right events |
| CapabilityTheorems.RunForward | services/control_plane/durable_capabilities.py:349-389 | identity fixed, external id write-once, readbacks never refunded, succeeded and failed never swapped, the conflict state absorbing, the log append-only |
| CapabilityTheorems.ReadbacksBounded | services/control_plane/durable_capabilities.py:391-414 | readbacks asked for one operation were each reserved first and never exceed the limit |
| CapabilityTheorems.DenialOrTotalStop | services/control_plane/durable_capabilities.py:416-447 | after it that stays so for every later run, and nothing of the subject is dispatched anew |
| CapabilityAnswers.DispatchedUnderAuthority | services/control_plane/durable_capabilities.py:205-301 | over every run each operation that was not denied was dispatched by one execute under a lease with its subject, device, task, name and arguments, single use and unexpired, biometric at R3 and never at R4, with its required and no unknown fields, a confirmation that equals the arguments where there is one and one where the origin is untrusted, before its deadline and with its subject not revoked |
| CapabilityAnswers.EffectsUnderAuthority | services/control_plane/durable_capabilities.py:302-335 | every effect of a run was asked for by a worker of an operation so dispatched, before the deadline and the end of that very lease |
| CapabilityAnswers.ExecuteDecides | services/control_plane/durable_capabilities.py:205-301 | a well-formed new request with room, no suspension, a fresh id and good clocks is dispatched exactly when it has all of that authority; its row, one event and one consumed lease are all that changes; without it the request is denied for a real reason and no lease is touched |
| CapabilityAnswers.DeniedForAReason | services/control_plane/durable_capabilities.py:218-245 | over every run each denied operation was denied by one execute for a reason that was a fact of its request, lease or ledger then |
| CapabilityAnswers.CloseDecides | services/control_plane/durable_capabilities.py:337-378 | how the caller closes an open operation, for every outcome: the observation's disposition and external id, or nothing heard |
| CapabilityAnswers.CloseReadbackDecides | services/control_plane/durable_capabilities.py:407-414 | the same for a reconciler, marked as reconciled |
| CapabilityAnswers.CheckDecides | services/control_plane/durable_capabilities.py:302-316 | the check before the provider passes, or closes as failed an operation that is suspended, revoked or out of time |
| CapabilityAnswers.ExternalIdsWereTold | services/control_plane/durable_capabilities.py:356-378 | over every run each external id was given by an observation of that very operation |
| CapabilityAnswers.RegisteredIff | services/control_plane/durable_capabilities.py:136-165 | an offer is taken exactly when its contract is sound, mutating and new and its adapter claims nothing else |
| CapabilityAnswers.ExecuteRefusals | services/control_plane/durable_capabilities.py:263-301 | each error of execute is true of the request, the rows or the clock |
| CapabilityTheorems.NextKeeps | services/control_plane/durable_capabilities.py:269-447 | every step of caller, worker, reconciler, revocation and crash keeps the whole invariant |
| CapabilityCalls.RunProjects | services/control_plane/durable_capabilities.py:334-347 | the gateway together with the pool of bounded calls refines the gateway alone: what a joint run does to the gateway is one of its own runs |
| CapabilityCalls.NextKeeps | services/control_plane/bounded_calls.py:30-59 | every action in the pool, in the gateway and a crash keeps the bounded call of an operation and its worker together |
| CapabilityCalls.ClosingHearsTheCall | services/control_plane/durable_capabilities.py:337-347 | the outcome the closing transaction is given is the one run returned to its caller |
| CapabilityCalls.NotStartedNeverEnters | services/control_plane/bounded_calls.py:30-59 | an operation whose call was reported as not started never ran, and its adapter is not called in any later run |
| CapabilityCalls.EndedRanOnce | services/control_plane/bounded_calls.py:30-59 | one that returned a value or an error ran once, and its worker ended with just that |
| CapabilityCalls.HonestOnThePool | services/control_plane/durable_capabilities.py:251-260 | the honesty of receipts holds of the callers and workers of the pool |
| CapabilityRuns.ObserveKeeps | services/control_plane/durable_capabilities.py:356-378 | an observation closes a row only as it is bound and terminal |
| CapabilityRuns.ConflictKeeps | services/control_plane/durable_capabilities.py:379-389 | a contradiction is recorded once and changes only that row |
| CapabilityGateway.DurableCapabilityGateway.Register | services/control_plane/durable_capabilities.py:136-165 | a capability is registered once, under a well-formed mutating specification with an adapter that matches it; a refused offer changes nothing |
| CapabilityGateway.DurableCapabilityGateway.Finish | services/control_plane/durable_capabilities.py:349-354 | event and row are written as the model says |
| CapabilityGateway.DurableCapabilityGateway.Observe | services/control_plane/durable_capabilities.py:356-378 | the branches compute the model's observation |
| CapabilityGateway.DurableCapabilityGateway.RecordConflict | services/control_plane/durable_capabilities.py:379-389 | the same for a late contradiction |
| CapabilityGateway.DurableCapabilityGateway.Execute | services/control_plane/durable_capabilities.py:269-301 | intent, audit and consumed lease commit together or not at all |
| CapabilityGateway.DurableCapabilityGateway.CheckDispatch | services/control_plane/durable_capabilities.py:302-316 | the check before the provider passes exactly under full authority |
| CapabilityGateway.DurableCapabilityGateway.Close | services/control_plane/durable_capabilities.py:337-347 | the closing transaction computes the model's |
| CapabilityGateway.DurableCapabilityGateway.ReserveReadback | services/control_plane/durable_capabilities.py:391-404 | the readback reservation computes the model's |
| CapabilityGateway.DurableCapabilityGateway.CloseReadback | services/control_plane/durable_capabilities.py:407-414 | the closing of a readback computes the model's |
| CapabilityGateway.DurableCapabilityGateway.RevokeSubject | services/control_plane/durable_capabilities.py:416-447 | denial or suspension is committed before the failure is raised; the first suspension reason is kept |
| JsonBounds.WorklistIsRecursion | services/model_gateway/production.py:50-88 | the stack walk accepts a document exactly when every node is in bounds and there are not too many |
| JsonBounds.AnyOrderDecides | services/model_gateway/production.py:54-79 | so does the walk in every other order of visits |
| JsonBounds.FaultsAreReal | services/model_gateway/production.py:54-79 | the fault a walk reports is one the document has |
| JsonBounds.ContextAccepted | services/model_gateway/production.py:50-88 | a context passes exactly when it is an object within all bounds that serializes within the byte limit |
| JsonAnswers.ContextDecides | services/model_gateway/production.py:50-88 | a context passes exactly when it is an object of at most 2048 nodes, every path at most eight long and leading to a node within the limits on width, names, texts and numbers, that serializes in at most 32768 bytes |
| JsonAnswers.ReceiptDecides | tools/verify_source_archive_receipt.py:341-364 | a receipt passes exactly when it has at most 200000 nodes, every path at most 64 long and leading to a named, finite and supported node |
| JsonAnswers.NodesArePaths | services/model_gateway/production.py:54-79 | the budget counts exactly the paths of the document |
| JsonAnswers.RefusalIsReal | services/model_gateway/production.py:54-79 | a refusal is true of the document: too many paths, or a path to a node with just that fault |
| JsonAnswers.ContextRefusals | services/model_gateway/production.py:50-88 | a context over a limit and one that is invalid are told apart by what is wrong with it |
| JsonBounds.ContextBytes | services/model_gateway/production.py:50-88 | the loop with its counter and stack computes that decision |
| JsonBounds.WalkJson | tools/verify_source_archive_receipt.py:341-364 | the receipt tool's loop computes the same walk under its own bounds |
| JsonBounds.PushFields | tools/verify_source_archive_receipt.py:351-355 | object fields are checked and pushed one by one |
| ModelTheorems.AtMostOneCommits | services/model_gateway/production.py:336-367 | of all attempts at a request at most one commits; it holds the row's claim and its answer is the row's for good |
| ModelTheorems.SupersededNeverCommits | services/model_gateway/production.py:354-359 | an attempt whose claim was taken over never commits in any later run |
| ModelTheorems.ClaimsAreExclusive | services/model_gateway/production.py:263-276 | a claim changes only by an execute, once the clock has reached its end, against one unit of the readback budget |
| ModelAnswers.ClaimHolds | services/model_gateway/production.py:263-276 | over every run in which the holder does not let go: until its timeout and a second have passed, or its authority has ended, any other execute under its key is refused, and one of the same open request with all else in order is told that it is in progress |
| ModelAnswers.ExecuteDecides | services/model_gateway/production.py:241-289 | an attempt is reserved exactly for an acceptable request that nothing bars, within at most five minutes, new with room in total and today or known, open, the same and unclaimed with budget left; the claim ends with the authority or between one and two seconds after the timeout, in exact time, and is all that changes |
| ModelAnswers.AuthorizeDecides | services/model_gateway/production.py:291-300 | the provider may be called exactly for the attempt that holds the open row, unbarred and in time |
| ModelAnswers.CommitDecides | services/model_gateway/production.py:336-367 | a result is committed exactly for that attempt, bound to its request and well formed; the row is closed with that answer and one event |
| ModelAnswers.DenyDecides | services/model_gateway/production.py:369-385 | a new denial cancels exactly the open requests it names and leaves its tombstone, or where there is no room suspends the registry |
| ModelAnswers.RowStory | services/model_gateway/production.py:241-289 | over every run each row was first reserved by one execute of just that request |
| ModelAnswers.CommitStory | services/model_gateway/production.py:336-367 | over every run each committed answer is the one its provider returned for that request to the attempt that held it |
| ModelAnswers.ExecuteRefusals | services/model_gateway/production.py:241-289 | each error of execute is true of the request, the rows or the clock |
| ModelTheorems.CallsBounded | services/model_gateway/production.py:302-320 | generate is called at most once for a request and reconcile at most once for each unit of the budget |
| ModelTheorems.AskedUnderAuthority | services/model_gateway/production.py:291-304 | over every run, each provider call ever made followed an authorization that saw its claim current, no denial and time left |
| ModelTheorems.QuotasAndLog | services/model_gateway/production.py:205-223 | daily and total quotas hold; the log is ordered in time and accounts for every readback and answer |
| ModelTheorems.DenialOrTotalStop | services/model_gateway/production.py:369-391 | after cancel or revoke_session the exact tombstone is there or the registry is suspended, for every later run, and no request it names is admitted, asked for or committed |
| ModelTheorems.ClosedIsFinal | services/model_gateway/production.py:331-367 | committed and cancelled requests never change again |
| ModelTheorems.RunForward | services/model_gateway/production.py:205-367 | the registry only moves forward: identity fixed, clock and budgets monotone, log append-only, suspension never undone |
| ModelInvariant.DenyKeeps | services/model_gateway/production.py:369-385 | a denial keeps the invariant and shuts out what it names |
| ModelInvariant.ReserveKeeps | services/model_gateway/production.py:259-289 | a reservation keeps quotas, tombstones and the accounting of the log |
| ModelInvariant.CommitKeeps | services/model_gateway/production.py:336-367 | so does a commit |
| ModelInvariant.UncertainKeeps | services/model_gateway/production.py:331-334 | so does marking an attempt uncertain |
| ModelRuns.NextKeeps | services/model_gateway/production.py:241-385 | every step of caller, worker, denial and crash keeps the whole invariant |
| ModelGateway.ProductionModelGateway.Finish | services/model_gateway/production.py:214-220 | the end of a transaction keeps a later clock or puts everything back |
| ModelGateway.ProductionModelGateway.Execute | services/model_gateway/production.py:241-289 | the reserving transaction computes the model's |
| ModelGateway.ProductionModelGateway.Authorize | services/model_gateway/production.py:291-300 | the authorization computes the model's |
| ModelGateway.ProductionModelGateway.Uncertain | services/model_gateway/production.py:331-334 | the release computes the model's |
| ModelGateway.ProductionModelGateway.Commit | services/model_gateway/production.py:336-367 | the commit computes the model's |
| ModelGateway.ProductionModelGateway.Deny | services/model_gateway/production.py:369-385 | the denial computes the model's |
| PayloadTheorems.ClaimsReturnWhatWasGiven | services/control_plane/capability_payload_store.py:397-511 | every dispatch or readback claim returns the snapshot of the payload given to prepare, across keys, nonces and the re-encryption under a new generation |
| PayloadTheorems.ClaimsAgree | services/control_plane/capability_payload_store.py:529-576 | two claims of one operation carry the same payload |
| PayloadTheorems.DispatchedAtMostOnce | services/control_plane/capability_payload_store.py:423-511 | an operation is claimed for dispatch at most once, and every readback follows that claim |
| PayloadTheorems.NeverUnreadable | services/control_plane/capability_payload_store.py:397-421 | a stored payload always decodes |
| PayloadTheorems.TerminalIsFinal | services/control_plane/capability_payload_store.py:578-632 | a state that is not open is final |
| PayloadTheorems.ExpiryLeavesNoTrace | services/control_plane/capability_payload_store.py:446-453 | a denied payload is one whose provider said so after dispatch: the expiry's denial is rolled back; quarantine does not occur |
| PayloadTheorems.RevocationIsFinal | services/control_plane/capability_payload_store.py:634-654 | nothing of a revoked subject is claimed again or stays open |
| PayloadTheorems.RevocationLands | services/control_plane/capability_payload_store.py:634-654 | a revocation closes every open payload of the subject and logs each exactly once |
| PayloadAnswers.OutcomeIff | services/control_plane/capability_payload_store.py:578-632 | over every run an operation is applied exactly when a terminal report accepted for it said applied, and so for not applied and denied |
| PayloadAnswers.OutcomeWasReported | services/control_plane/capability_payload_store.py:578-632 | every final outcome has such a report, of its operation, generation, provider and argument, with the external id it has |
| PayloadAnswers.ReportIsRecorded | services/control_plane/capability_payload_store.py:578-632 | every such report is in the row for good |
| PayloadAnswers.ReportDecides | services/control_plane/capability_payload_store.py:578-632 | a report is accepted exactly if it is well formed and speaks of an open dispatch; the row takes the state it says, indeterminate unless it is terminal and knows, with its external id, and the event says the same |
| PayloadAnswers.PrepareDecides | services/control_plane/capability_payload_store.py:273-375 | a sound intent with a canonical payload under a new key is taken exactly when there is room, its operation is new and its payload can be sealed; the row says everything the intent said |
| PayloadAnswers.UncanonicalRefused | services/control_plane/capability_payload_store.py:219-236 | a payload without a canonical form is refused |
| PayloadAnswers.ReplayDecides | services/control_plane/capability_payload_store.py:305-335 | a key used before is a replay exactly when the whole intent is the same |
| PayloadAnswers.ClaimDecides | services/control_plane/capability_payload_store.py:423-511 | a payload is claimed for dispatch exactly by its subject under its lease before its deadline while prepared and twice authorized; the claim holds just that payload and its row the next generation |
| PayloadAnswers.ClaimRefusals | services/control_plane/capability_payload_store.py:423-511 | each error of it is true of the names, the row, the payload, the key or the clock |
| PayloadAnswers.ReadbackDecides | services/control_plane/capability_payload_store.py:529-576 | a readback is claimed exactly by the subject of an open dispatch within its budget |
| PayloadAnswers.RevokeDecides | services/control_plane/capability_payload_store.py:634-654 | a revocation closes exactly the subject's open rows and keeps the first time |
| PayloadRuns.NextKeeps | services/control_plane/capability_payload_store.py:273-654 | every entry point keeps the whole invariant and only moves forward |
| PayloadStore.EncryptedCapabilityPayloadStore.Prepare | services/control_plane/capability_payload_store.py:273-375 | the transaction computes the model's |
| PayloadStore.EncryptedCapabilityPayloadStore.ClaimDispatch | services/control_plane/capability_payload_store.py:423-511 | the same, with what is written before a failure rolled back |
| PayloadStore.EncryptedCapabilityPayloadStore.MarkIndeterminate | services/control_plane/capability_payload_store.py:513-527 | the same |
| PayloadStore.EncryptedCapabilityPayloadStore.ClaimReadback | services/control_plane/capability_payload_store.py:529-576 | the same |
| PayloadStore.EncryptedCapabilityPayloadStore.CommitObservation | services/control_plane/capability_payload_store.py:578-632 | the same |
| PayloadStore.EncryptedCapabilityPayloadStore.RevokeSubject | services/control_plane/capability_payload_store.py:634-654 | the same, with the loop that logs each closed payload |
| OAuthTheorems.GenerationsConserved | services/control_plane/oauth_vault.py:495-610 | the generations that ever held a stored refresh token are exactly those of the outbox and the current one if active, each once |
| OAuthTheorems.RunForward | services/control_plane/oauth_vault.py:545-770 | generations grow with every stored token and every revocation; states only move on |
| OAuthTheorems.ExchangedAtMostOnce | services/control_plane/oauth_vault.py:394-461 | a state reaches the exchange at most once and is never usable again |
| OAuthAnswers.ExchangeStory | services/control_plane/oauth_vault.py:338-428 | over every run each exchange was for a state issued and unexpired at its clock, by one who has the verifier that the challenge given to begin_authorization was made from |
| OAuthAnswers.CompleteDecides | services/control_plane/oauth_vault.py:394-428 | a completion reaches the exchange exactly for an issued, unexpired state with the verifier of its challenge, and takes the state |
| OAuthAnswers.StateStory | services/control_plane/oauth_vault.py:338-392 | over every run each state is what one begin_authorization asked for, its challenge included |
| OAuthAnswers.BeginDecides | services/control_plane/oauth_vault.py:338-392 | a state is issued exactly for a sound request of at most ten minutes while there is room; those whose time has passed unused expire and no others |
| OAuthAnswers.CommitDecides | services/control_plane/oauth_vault.py:463-594 | an exchange is committed exactly for a state still exchanging and unexpired, with a response for its account and scopes and a token that can be sealed; the state is consumed, the token stored and one it replaces handed over |
| OAuthAnswers.TokenStory | services/control_plane/oauth_vault.py:463-751 | over every run each token ever stored was returned by its provider for just that account |
| OAuthAnswers.ScopeStory | services/control_plane/oauth_vault.py:338-594 | over every run a credential has exactly the scopes its owner was asked for when it was authorized |
| OAuthAnswers.GrantDecides | services/control_plane/oauth_vault.py:637-681 | a grant begins exactly on an active credential with all the scopes asked for, authorized, whose token reads back |
| OAuthAnswers.RotateDecides | services/control_plane/oauth_vault.py:682-751 | it ends exactly on that credential unchanged, authorized again, with a response for its account and scopes; the new token is stored and the old one handed over |
| OAuthAnswers.RotateRefusals | services/control_plane/oauth_vault.py:682-751 | each error of it is true of the response, the row, the key or the clock |
| OAuthAnswers.RevokeDecides | services/control_plane/oauth_vault.py:753-772 | a revocation makes an active credential inactive in its next generation and hands its token over, once |
| OAuthAnswers.CompleteRefusals | services/control_plane/oauth_vault.py:394-428 | each error of a completion is true of its texts, its state or the clock |
| OAuthTheorems.ActiveReads | services/control_plane/oauth_vault.py:612-635 | an active credential's token always reads back |
| OAuthTheorems.StaleGrantFails | services/control_plane/oauth_vault.py:683-694 | a grant whose credential moved on since it read it stores and releases nothing |
| OAuthTheorems.DeliverableIff | services/control_plane/oauth_vault.py:795-823 | a queued revocation reaches its provider exactly when its token and scopes are still those of the credential's row |
| OAuthTheorems.RevokedIsDeliverable | services/control_plane/oauth_vault.py:753-772 | the token a revocation queues can be delivered |
| OAuthTheorems.RotatedIsNot | services/control_plane/oauth_vault.py:702-739 | the token a refresh replaced cannot, unless the provider returned the same token, which is then the live one |
| OAuthWitness.UndeliverableIsReached | services/control_plane/oauth_vault.py:702-823 | such an entry occurs: a run under both cipher laws reaches a pending revocation whose delivery fails |
| OAuthRuns.NextKeeps | services/control_plane/oauth_vault.py:338-840 | every step keeps the whole invariant |
| DurableVault.DurableOAuthVault.Begin | services/control_plane/oauth_vault.py:338-392 | the transaction computes the model's |
| DurableVault.DurableOAuthVault.Reserve | services/control_plane/oauth_vault.py:394-428 | the same, with the rolled-back expiry |
| DurableVault.DurableOAuthVault.MarkIndeterminate | services/control_plane/oauth_vault.py:439-455 | the same for an uncertain exchange |
| DurableVault.DurableOAuthVault.CommitTokens | services/control_plane/oauth_vault.py:495-594 | the same |
| DurableVault.DurableOAuthVault.Rotate | services/control_plane/oauth_vault.py:682-751 | the same for the closing transaction of a grant |
| DurableVault.DurableOAuthVault.Revoke | services/control_plane/oauth_vault.py:753-772 | the same |
| DurableVault.DurableOAuthVault.Deliver | services/control_plane/oauth_vault.py:795-823 | the same for a delivery up to the provider call |
| DurableVault.DurableOAuthVault.Acknowledge | services/control_plane/oauth_vault.py:832-839 | the same for its receipt |
| IdentityTheorems.RevocationAlwaysWins | services/control_plane/durable_identity.py:373-404 | after a revocation of a subject, device, session or token, known or not, no token it names is prepared, committed or accepted in any later run |
| IdentityTheorems.RevokedStaysInactive | services/control_plane/durable_identity.py:373-404 | no row a tombstone names is active, also when the tombstone came first |
| IdentityTheorems.AdmissionIsOneRow | services/control_plane/durable_identity.py:323-371 | the final admission holds exactly when the token's own row is active, its claims are these, unexpired and sufficient |
| IdentityTheorems.TokensOnlyMoveOn | services/control_plane/durable_identity.py:345-358 | an abandoned or revoked token is never active again |
| IdentityTheorems.ProofIsForever | services/control_plane/durable_identity.py:245-259 | a device keeps the proof and the subject it enrolled with |
| IdentityTheorems.NextKeeps | services/control_plane/durable_identity.py:185-404 | every transaction keeps the revocation closure and only moves forward |
| IdentityTheorems.SortedSet | services/control_plane/durable_identity.py:50-58 | sorting scopes loses and adds none |
| IdentityAnswers.AdmissionStory | services/control_plane/durable_identity.py:297-371 | over every run claims are accepted only if a token was prepared with exactly these on a session then live and committed while they were still sound, for the audience and scopes they name and before they expire |
| IdentityAnswers.DeviceStory | services/control_plane/durable_identity.py:198-276 | over every run a device is there only because a challenge was issued for exactly its binding and, unspent and unexpired, answered with the proof it has, timely before and after the writes |
| IdentityAnswers.SessionStory | services/control_plane/durable_identity.py:278-295 | each session was opened on a live device of its subject for allowed scopes and at most a day |
| IdentityAnswers.TokenStory | services/control_plane/durable_identity.py:297-321 | each token was prepared with the claims it has on a session live at that moment and within it |
| IdentityAnswers.AcceptDecides | services/control_plane/durable_identity.py:222-276 | an attestation is accepted exactly for the challenge issued under its nonce, unspent, by a live subject, timely at both readings, for a device that is new with room or enrolled with the same binding and proof and not revoked; the challenge is spent and the device enrolled |
| IdentityAnswers.RefusalIsReal | services/control_plane/durable_identity.py:222-276 | each error of an acceptance is true of the attestation, the rows or the clock |
| IdentityAnswers.ChallengeDecides | services/control_plane/durable_identity.py:198-220 | a challenge is issued exactly for a live subject and a device new or its own, for at most five minutes |
| IdentityAnswers.SessionDecides | services/control_plane/durable_identity.py:278-295 | a session is opened exactly on a live device for allowed scopes and at most a day |
| IdentityAnswers.PrepareDecides | services/control_plane/durable_identity.py:297-321 | a token is prepared exactly on a live session that it neither outlives nor goes beyond; its claims are what was asked for, the scopes in ascending order |
| IdentityAnswers.CommitDecides | services/control_plane/durable_identity.py:323-353 | a token is committed exactly while being prepared and its claims are still sound |
| IdentityAnswers.RequireDecides | services/control_plane/durable_identity.py:323-371 | a token is accepted exactly when active, its claims sound, and for this audience and these scopes |
| IdentityAnswers.RequireRefusals | services/control_plane/durable_identity.py:323-371 | each refusal is true of what is asked, the claims, the rows or the clock |
| IdentityAnswers.RevokeDecides | services/control_plane/durable_identity.py:373-404 | a revocation leaves one tombstone with one event and reaches exactly the rows of its name, table by table |
| IdentityAnswers.SortedAscends | services/control_plane/durable_identity.py:50-58 | sorting is a permutation in ascending code-point order |
| IdentityStore.DurableIdentityStore.AdmitSubject | services/control_plane/durable_identity.py:185-196 | the transaction computes the model's |
| IdentityStore.DurableIdentityStore.IssueChallenge | services/control_plane/durable_identity.py:198-220 | the same |
| IdentityStore.DurableIdentityStore.Accept | services/control_plane/durable_identity.py:222-276 | the same, with the clock read again after the writes |
| IdentityStore.DurableIdentityStore.CreateSession | services/control_plane/durable_identity.py:278-295 | the same |
| IdentityStore.DurableIdentityStore.PrepareToken | services/control_plane/durable_identity.py:297-321 | the same |
| IdentityStore.DurableIdentityStore.CommitToken | services/control_plane/durable_identity.py:345-353 | the same |
| IdentityStore.DurableIdentityStore.AbandonToken | services/control_plane/durable_identity.py:355-358 | the same |
| IdentityStore.DurableIdentityStore.RequireToken | services/control_plane/durable_identity.py:360-371 | the read-only admission decides what the model decides |
| IdentityStore.DurableIdentityStore.Revoke | services/control_plane/durable_identity.py:373-404 | the same, and the sequence returned is that of the tombstone's event |
| AccountTheorems.AuthorityHangsTogether | services/control_plane/account_runtime.py:338-459 | at most one active token for a session and audience; expiries within the session's; an active token or pair has an active session on an active device of its subject; expired is never stored |
| AccountTheorems.RevokedOnce | services/control_plane/account_runtime.py:548-633 | every revoked session has exactly one revocation event, nothing else has any |
| AccountTheorems.AccessIsOneRow | services/control_plane/account_runtime.py:461-515 | a bearer is admitted exactly by its own row |
| AccountTheorems.PairIsOneRow | services/control_plane/account_runtime.py:517-546 | a pair resolves exactly by its own row |
| AccountTheorems.PredecessorEnds | services/control_plane/account_runtime.py:379-425 | issuing a token ends its predecessor for good |
| AccountTheorems.RevokedForGood | services/control_plane/account_runtime.py:548-579 | a revoked session never admits a bearer or resolves a pair again |
| AccountTheorems.ReplacementCascades | services/control_plane/account_runtime.py:581-633 | replacing a device leaves none of its sessions active and the new device ready |
| AccountTheorems.CascadeAllKeeps | services/control_plane/account_runtime.py:612-633 | the loop revokes exactly the sessions selected before it |
| AccountAnswers.AccessStory | services/control_plane/account_runtime.py:294-515 | over every run a bearer is admitted only with a token issued for the audience and scope asked about, still within its expiry, on a session opened by its subject on a device of its own |
| AccountAnswers.TokenStory | services/control_plane/account_runtime.py:379-425 | each token was issued on a session live at that moment, within it, with exactly the audience, scopes, policy, presence and expiry asked for |
| AccountAnswers.PairStory | services/control_plane/account_runtime.py:338-377 | each pair is the one bound to its session last, for the session's subject and device |
| AccountAnswers.EventStory | services/control_plane/account_runtime.py:548-633 | each revocation event announces a session that was not revoked, with its subject, device and reason |
| AccountAnswers.IssueDecides | services/control_plane/account_runtime.py:379-425 | a token is issued exactly on a live session it does not outlive, with all that was asked for; the active ones of the session and audience before it are rotated and no others |
| AccountAnswers.VerifyDecides | services/control_plane/account_runtime.py:461-515 | a bearer is admitted exactly by an active, unexpired token for the audience and scope on a live session |
| AccountAnswers.PairDecides | services/control_plane/account_runtime.py:517-546 | a pair resolves exactly for the subject and device it was bound for, active and unexpired, on a live session |
| AccountAnswers.BindDecides | services/control_plane/account_runtime.py:338-377 | a pair is bound exactly to a live session it does not outlive, counted on |
| AccountAnswers.RevokeDecides | services/control_plane/account_runtime.py:548-579 | a revocation ends the session, its active and rotated tokens and its pair, with one event, once |
| AccountAnswers.ReplaceDecides | services/control_plane/account_runtime.py:581-633 | a lost device is replaced exactly by one not seen before; the sessions active on it go with all their tokens and their pairs, one event each, and no others |
| AccountAnswers.CheckRefusals | services/control_plane/account_runtime.py:427-546 | each denial of a bearer or a pair is true of the rows or the clock |
| AccountRuntime.DurableAccountRuntime.ResolvePair | services/control_plane/account_runtime.py:517-546 | decides what the model decides, and tells the subject, device, session, identity and expiry of the pair's row |
| AccountTheorems.NextKeeps | services/control_plane/account_runtime.py:264-674 | every transaction keeps the cascade and only moves forward |
| AccountRuntime.DurableAccountRuntime.Register | services/control_plane/account_runtime.py:264-292 | the transaction computes the model's |
| AccountRuntime.DurableAccountRuntime.OpenSession | services/control_plane/account_runtime.py:294-336 | the same |
| AccountRuntime.DurableAccountRuntime.RequireLive | services/control_plane/account_runtime.py:427-459 | names the fault the model names, and writes nothing unless it fails |
| AccountRuntime.DurableAccountRuntime.BindPair | services/control_plane/account_runtime.py:338-377 | the same |
| AccountRuntime.DurableAccountRuntime.IssueAccess | services/control_plane/account_runtime.py:379-425 | the same |
| AccountRuntime.DurableAccountRuntime.VerifyAccess | services/control_plane/account_runtime.py:461-515 | decides what the model decides, leaves the tables as they were, and tells exactly what the token's and its session's rows say |
| AccountRuntime.DurableAccountRuntime.RevokeSession | services/control_plane/account_runtime.py:548-579 | the same |
| AccountRuntime.DurableAccountRuntime.ReplaceDevice | services/control_plane/account_runtime.py:581-633 | the same, with the loop over the selected sessions |
| AccountRuntime.DurableAccountRuntime.Acknowledge | services/control_plane/account_runtime.py:664-674 | the same |
| GlassesTheorems.AuthorityCoherent | ios/Runner/BluetoothManager.swift:514-552 | every live token is of the current generation and names the selected peripheral of its side; no retired one holds a token; readiness and queued writes belong to token holders, at most 128 each |
| GlassesTheorems.RetiredForever | ios/Runner/BluetoothManager.swift:46-57 | once an attempt lost its peripheral no callback of it ever changes anything |
| GlassesTheorems.NoLostWakeUp | ios/Runner/BluetoothManager.swift:554-571 | a waiting connection has its activation scheduled or a retired leg whose end schedules it |
| GlassesTheorems.WaitingConnectionActivates | ios/Runner/BluetoothManager.swift:514-571 | in every run without another connect, a disconnect or a power-off: once no leg is retired and the scheduled block runs, the connection that waited is the chosen one, and if it waited till then the block was scheduled and it owns both legs |
| GlassesTheorems.BothEndsRelease | ios/Runner/BluetoothManager.swift:336-382 | the ends of the two legs release a waiting connection and schedule its activation |
| GlassesTheorems.WritesAreOwned | ios/Runner/BluetoothManager.swift:654-697 | a write reaches a peripheral only for a live token of the current generation |
| GlassesWrites.WritesConserved | ios/Runner/BluetoothManager.swift:654-697 | while an attempt lives no write of it is lost or doubled: each one taken was sent or is in its queue, which holds at most 128 |
| GlassesTheorems.AnnouncedWhenReady | ios/Runner/BluetoothManager.swift:573-617 | connected is announced only with both legs ready under live tokens |
| GlassesAnswers.PendingStory | ios/Runner/BluetoothManager.swift:226-313 | over every run a waiting connection is one the user asked for, of the two legs discovered last under its name, each on its own side and since the last scan |
| GlassesAnswers.SelectedStory | ios/Runner/BluetoothManager.swift:514-571 | the chosen connection was the waiting one when the scheduled block ran, in its generation and with neither leg retired |
| GlassesAnswers.TokenStory | ios/Runner/BluetoothManager.swift:514-552 | each live token was made by that block for the leg of its side |
| GlassesAnswers.ReadyStory | ios/Runner/BluetoothManager.swift:474-491 | a leg is ready only because it told, under the very token it has, that it notifies |
| GlassesAnswers.AnnouncementStory | ios/Runner/BluetoothManager.swift:573-617 | each announcement was made by a live leg's notification that found both legs up |
| GlassesAnswers.ConnectDecides | ios/Runner/BluetoothManager.swift:226-261 | only a pair with both sides found is connected: it waits scheduled in the next generation, and everything else is let go of, links still up being retired |
| GlassesAnswers.ScheduledDecides | ios/Runner/BluetoothManager.swift:514-571 | the block gives the waiting connection both legs and fresh tokens exactly when neither leg is retired; a superseded one is dropped |
| GlassesAnswers.NotificationDecides | ios/Runner/BluetoothManager.swift:474-617 | a leg becomes ready once it notifies and takes the initialization, else it is ended and cut off; the link is announced exactly when both legs are up by then |
| GlassesAnswers.TerminalDecides | ios/Runner/BluetoothManager.swift:336-382 | the end of a retired link releases it and schedules the block, that of a live leg ends the leg, any other changes nothing |
| GlassesAnswers.EnqueueDecides | ios/Runner/BluetoothManager.swift:654-679 | a write is taken exactly on a ready leg of its own live token with room: sent at once, or queued last below 128 |
| GlassesAnswers.DrainDecides | ios/Runner/BluetoothManager.swift:681-697 | a live leg is drained from the front of its queue, in order, as far as there is room |
| GlassesTheorems.NextKeeps | ios/Runner/BluetoothManager.swift:226-393 | every call and callback keeps the whole invariant |
| BluetoothManagers.ConnectionAttemptAuthority.Begin | ios/Runner/BluetoothManager.swift:21-36 | beginning an attempt replaces the peripheral's token |
| BluetoothManagers.ConnectionAttemptAuthority.Retire | ios/Runner/BluetoothManager.swift:46-51 | only the current token retires |
| BluetoothManagers.ConnectionAttemptAuthority.RetireAll | ios/Runner/BluetoothManager.swift:53-57 | returns every token and holds none |
| BluetoothManagers.RetiredConnectionBarrier.Consume | ios/Runner/BluetoothManager.swift:75-78 | tells whether the identifier was retired and lets go of it |
| BluetoothManagers.BluetoothManager.Connect | ios/Runner/BluetoothManager.swift:226-261 | the method computes the model's |
| BluetoothManagers.BluetoothManager.Disconnect | ios/Runner/BluetoothManager.swift:263-267 | the same |
| BluetoothManagers.BluetoothManager.Clear | ios/Runner/BluetoothManager.swift:778-819 | the same for clearConnection |
| BluetoothManagers.BluetoothManager.Unexpected | ios/Runner/BluetoothManager.swift:739-776 | the same for handleUnexpectedDisconnect |
| BluetoothManagers.BluetoothManager.Activate | ios/Runner/BluetoothManager.swift:514-552 | the same |
| BluetoothManagers.BluetoothManager.RunScheduled | ios/Runner/BluetoothManager.swift:557-570 | the same for the block on the main queue |
| BluetoothManagers.BluetoothManager.Terminal | ios/Runner/BluetoothManager.swift:336-382 | the same for the end of a link |
| BluetoothManagers.BluetoothManager.Enqueue | ios/Runner/BluetoothManager.swift:654-679 | the same for enqueueWrite |
| BluetoothManagers.BluetoothManager.Drain | ios/Runner/BluetoothManager.swift:681-697 | the same, with the loop that hands writes over |
| BluetoothManagers.BluetoothManager.MarkReady | ios/Runner/BluetoothManager.swift:573-617 | the same |

## Left out

- SQLite itself: WAL, schema text, file paths, markers and offline migrations. Only atomic transactions that roll back on error and are serialized between connections are kept.
- HTTP, TLS, sockets and the concrete provider clients: a provider's answer is any value.
- Hashing, encryption, base64 and the PKCE transform of section 4.2 of RFC 7636: injective or inverse functions; ciphers and the JSON codec are parameters under stated laws.
- Liveness that waits for a provider or a callback, and any relation between the wall clock and the monotonic clock.
- The loops of the realtime `revoke` and `drain_revocations` over pending jobs, and the order of `eligible_jobs`: each job is one step of a run, in any order.
- Read-only inventories: recovery_status, pending_recovery, pending, recoverable, status, suspension_status, recovery_inventory, events_after, pending_tokens, pending_revocations.
- Realtime results rejected for their deadline before the row changes: the model keeps only the indeterminate session, as the code does, and does not claim that every id ever observed is retained.
- A refresh token that a provider returned to a grant which was fenced meanwhile: it was never stored, so it is in no generation.
- The order of writes on the iOS link: a write may go out at once while older ones are queued. CoreBluetooth, Flutter channels and PCM decoding are left out, and the callbacks that only forward data or attach a delegate.
- Strings with lone surrogates: characters are Unicode scalar values, and a text that cannot be encoded is an input that fails.
- Opening a database: version markers and table names. Of the realtime store the checks of a store that exists are modelled.
- ModelGateway.ProductionModelGateway.constructor: makes a new registry under a given policy; the bounds of its configuration and the comparison with the persisted policy are not modelled, being single comparisons.
- RealtimeStore.DurableRealtimeStore.constructor: makes a new store under given limits; the checks of opening are those of Reopen.
- That model and realtime workers are those of the pool in `bounded_calls.dfy`: the machines take their outcomes to be its outcomes, and only the capability gateway is proved together with it.
- Two generated identifiers or two claims that are equal: they are taken to differ where a run makes them.
- PayloadTheorems.RevocationLands: assumes the database lists every row exactly once, in any order.
- AccountTheorems.ReplacementCascades: makes the same assumption about the sessions it selects.
- The in-memory reference versions of these components, ingress parsers, validators and the user interface.
