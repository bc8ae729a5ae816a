# Lens Hub: a verified model

A Dafny model of the Hub of Barrikade Lens: how snapshots from many collectors become one
inventory, how collectors are enrolled, how scans and analytics events are queued, and the
smaller mechanisms around them. PostgreSQL tables are maps held by classes, every database
transaction is one atomic method, and the time is a parameter. Each method is proved
against a function on the tables; the theorems speak about every sequence of steps.

| files | what they model |
|---|---|
| Sorting, Options, Backoff, Sizes | orders and sorting, optional values, retry delays, sizes of sets |
| Posture, PostureLaws | aggregation of the current observations of an entity or relationship |
| EntityDiff | the diff between the stored entity and its new aggregate |
| Presence, Ingestion, IngestionRuns, Mentions, Worker, WorkerRuns, Collector | observation rows with their three-strike counter, the projection, the change log, the retirements, whole runs |
| Enrollment, Requests, EnrollmentRuns, Devices, Setups, Reconnection, Registry | codes, policies, targets, sources, tokens, environments, setups and handoffs |
| CloudQueue, CloudRuns | leased cloud scan jobs with crashing and late workers |
| Outbox | leased delivery of product events to PostHog |
| Clerk | lifecycle webhooks in any order |
| Topology | the bounded topology search |
| Paging, Cursors, Fleet | keyset pagination, cursor texts, the device lists |
| Tenant, RateLimit, Quoting | the request transaction, the request limiter, command quoting |

Where a promise does not hold of the code on all inputs, the code is kept as it is and the
exact condition is proved:

- A late `failOrRetry` can put a job that has used its five attempts back into the queue
  (`CloudRuns.OverdrawnIff`, `CloudRuns.SixthClaim`).
- The claim queries of both queues roll their clean-up back when there is nothing to claim.
  A cloud job out of attempts then keeps its environment busy until another job is claimed
  (`CloudRuns.ExhaustedIff`, `CloudRuns.ExhaustedBlocks`, `CloudRuns.BlockedForGood`), and an
  idle PostHog poll counts dead letters that it does not bury (`Outbox.BuriedIff`,
  `Outbox.IdlePollsInflate`, `Outbox.PollsCountForGood`). The counters start again at zero with
  their process, so they can also be below the dead events (`Outbox.CounterBound`,
  `Outbox.CrashForgets`).
- A late `finish` can strand an event (`Outbox.StrandedIff`, `Outbox.LateFinishStrands`,
  `Outbox.StrandedForGood`).
- A save and a deletion with one latest time stamp leave a Clerk row to the delivery order
  (`Clerk.OrgConvergesIff`, `Clerk.UserConvergesIff`).
- A changed attribute that is an explicit JSON null is lost by the diff
  (`EntityDiff.DiffIsExact`, `EntityDiff.NullIsLost`).
- With more than twelve qualifying edges at a node, upstream and downstream searches can
  disagree (`Topology.ReversalIff`, `Topology.ReversalFails`).
- An environment that lost its source to another setup can come back through an upgrade that
  was prepared before, until that expires (`Reconnection.ReturnIff`,
  `Reconnection.ReturnHappens`); one that was disconnected by request cannot
  (`Setups.DisconnectIsFinal`).
- One identity key enrolled with codes of two types has two live sources for one target
  (`Devices.CrowdedIff`, `Devices.CrowdHappens`).
- PowerShell treats four typographic quotes like the apostrophe (`Quoting.PowershellRoundTrip`,
  `Quoting.TypographicIsLost`).

Assumptions: each transaction is atomic and isolated; one non-decreasing clock serves all
replicas and the database; stable ids, token hashes, content hashes and canonical JSON are
injective; random names are new; texts are ordered by their bytes; a query with SKIP LOCKED
and LIMIT 1 may return any matching row; the cursor's JSON and base64 and the RFC 3339 times
read back what was written; a redelivered Clerk webhook carries the same event time, so its
payload has a timestamp of its own (without one `internal/hub/clerk.go:71` takes the time of
the delivery, which a redelivery changes). `Clerk.RowIffActive` and `Clerk.Desk` take the
webhooks to be the only writers of organization rows; the provisioning and the deletion of a
workspace by its owner (`internal/hub/environments.go:173`, `internal/hub/environments.go:221`)
write them too, without the webhooks' state.

`revokeSource`, `revokeFleetDevice` and `disconnectEnvironment` touch several tables and are
modelled once for each group of them: for the inventory in `Worker.Hub`, for the enrollment in
`Registry.Organization` and for the scan queue in `CloudQueue.Hub`. Each of these classes has
its own map of sources, and no theorem ties the maps together; the code writes all the groups
in one transaction.

## Model

| member | source | states |
|---|---|---|
| Posture.MergeArrays | internal/hub/posture.go:505-525 | the loop returns the canonical, sorted set union of the two arrays |
| Posture.MergeOne | internal/hub/posture.go:144-199 | one key of one observation: booleans are or-ed, arrays united, the first value is kept otherwise and the clash is noted with both sources |
| Posture.MergeInto | internal/hub/posture.go:144-199 | the loop over a Go map gives the same merged attributes, origins and conflicts in whatever order it visits the keys |
| Posture.OrderRows | internal/hub/posture.go:118-143 | the rows come strongest confidence first, then latest, then by source, each exactly once |
| Posture.MergeEntityRows | internal/hub/posture.go:118-223 | the row loop: the fold over all rows, the strongest confidence and the non-empty provenance texts |
| Posture.AggregateEntityObservations | internal/hub/posture.go:118-223 | an entity's aggregate, and none exactly when there is no current observation |
| Posture.MergeRows | internal/hub/posture.go:53-116 | the row loop for a relationship: fold, surfaces and states of all rows |
| Posture.AggregateRelationshipObservations | internal/hub/posture.go:53-116 | a relationship's aggregate, and none exactly when there is no current observation |
| PostureLaws.MergedValue | internal/hub/posture.go:144-199 | for any rows: a key is merged iff some row gives it; its value is decided by the first giver, as disjunction, sorted union or that value |
| PostureLaws.UnionLaws | internal/hub/posture.go:505-525 | the array merge is strictly sorted, has exactly both arrays' members, and is commutative, associative and idempotent on sorted arrays |
| PostureLaws.ContestedKeys | internal/hub/posture.go:165-199 | a key is reported as contested iff two rows give it values that do not merge |
| PostureLaws.ContestedSources | internal/hub/posture.go:165-199 | the same for sources, independent of the row order |
| PostureLaws.ConflictsNoted | internal/hub/posture.go:180-199 | the report of a contested key names the first source and every source that clashes with it, each with its own value, and no other |
| PostureLaws.BooleanKeys | internal/hub/posture.go:144-199 | a key that every reporting source gives as a boolean becomes true iff some source says true |
| PostureLaws.ArrayKeys | internal/hub/posture.go:144-199 | a key that every reporting source gives as an array has exactly the elements that some source gives, sorted as soon as two sources report it |
| PostureLaws.PlainKeys | internal/hub/posture.go:165-199 | a key that is neither boolean nor array for the strongest source that reports it has that source's value |
| PostureLaws.StrongestIs | internal/hub/posture.go:118-143 | the strongest source has the highest confidence, then the latest observation, then the smallest id |
| PostureLaws.EntityAggregateIs | internal/hub/posture.go:118-223 | name, kind and key come from a strongest source, the confidence is the maximum, the provenance the sorted union over all sources |
| PostureLaws.RelationAggregateIs | internal/hub/posture.go:53-116 | kind and ends come from a strongest source, the confidence is the maximum, surfaces and states are the sorted unions |
| EntityDiff.CompareAttributes | internal/hub/posture.go:230-265 | the loop over the sorted keys finds exactly the differing keys, and the last posture or network key decides the category |
| EntityDiff.ComputeChange | internal/hub/posture.go:230-289 | no change iff the entity was current, fresh and is equal; otherwise exactly the fields that differ, in order, and the category that ChangeIs states |
| EntityDiff.ChangeIs | internal/hub/posture.go:230-289 | a new discovery state gives state, a not current or stale entity freshness; otherwise the greatest changed posture or network key decides between state and network scope, and without one the confidence, then the name |
| EntityDiff.DiscoveryStateIs | internal/hub/posture.go:405-412 | the discovery state is that of the strongest attribute that holds |
| EntityDiff.DiffIsExact | internal/hub/posture.go:230-289 | the after values turn the old record into the new one, and the before values undo it, iff no changed attribute is an explicit JSON null on the side being restored |
| EntityDiff.NullIsLost | internal/hub/posture.go:230-265 | a version that becomes an explicit null is lost forward, one that was an explicit null is lost backward |
| EntityDiff.NoChangeIff | internal/hub/posture.go:230-289 | no change is reported iff the entity was current and fresh and name, confidence and attributes are equal |
| EntityDiff.CurrentFieldIff | internal/hub/posture.go:266-287 | a change carries a current field iff the entity was not current and fresh; a network-scope change never does |
| Ingestion.SeenRows | internal/hub/worker.go:379-383 | after the upserts each reported subject of the source has a fresh row from one of its reports, and every other row is as before |
| Ingestion.IngestStores | internal/hub/worker.go:362-457 | an accepted snapshot stores what the last report of each subject says, field by field, with the defaults of a relationship, and disturbs no other observation |
| Ingestion.AdmitAnswers | internal/hub/worker.go:233-252 | each refusal is given exactly for its own fact when the earlier ones hold |
| Ingestion.IngestValid | internal/hub/worker.go:233-360 | an accepted snapshot keeps the rows well-formed and both projections equal to the fold over the current rows |
| Ingestion.RetireValid | internal/hub/server.go:902-931 | so does the withdrawal of any set of sources |
| Ingestion.RetireWithdraws | internal/hub/environments.go:791-847 | a withdrawal revokes exactly its sources, takes exactly their rows out with their observations, and sets the counter only for a removed repository |
| IngestionRuns.ProjectionOfRun | internal/hub/posture.go:337-368 | after every run, in which sources are also withdrawn, revoked and brought back: a subject is current iff some source currently observes it, stale iff no such observation is fresh, and when current it equals the aggregate of exactly those observations |
| IngestionRuns.RowsOfRun | internal/hub/worker.go:459-479 | after every run: misses are the accepted full snapshots of the source since the last one with the subject, capped at three; stale from two, gone at three; deltas never count |
| IngestionRuns.RowsTracked | internal/hub/worker.go:362-405 | every row is the replay of its source's accepted history, withdrawals included |
| Mentions.EntityRowsSay | internal/hub/worker.go:379-383 | after every run an entity row holds what the source's last accepted snapshot with that entity said in its last report |
| Mentions.RelationRowsSay | internal/hub/worker.go:407-440 | the same for the rows of relationships, with the default surface and state |
| IngestionRuns.OnlyRecordsCount | internal/hub/worker.go:250-257 | a stream with duplicates, reordering and retries does exactly what its strictly increasing running maxima do; every other delivery changes nothing |
| IngestionRuns.RecordIffApplied | internal/hub/worker.go:237-252 | a delivery is applied iff its sequence exceeds all earlier admissible ones of its source |
| IngestionRuns.ReplayIsIdle | internal/hub/worker.go:86-93 | a numbered snapshot sent again, at once or later, is recognised and changes nothing |
| Collector.Controller.Upload | internal/kubecontroller/controller.go:133-170 | the sequence is saved before it is sent, at most five copies of one snapshot go out, and no number ever stands for two contents, also after failures |
| Collector.Controller.Restart | internal/kubecontroller/controller.go:141-144 | a restart continues from the saved sequence and keeps that record |
| Collector.CopiesClean | internal/kubecontroller/controller.go:141-168 | sending a new number any number of times keeps the record rising and unambiguous |
| Worker.Hub.UpsertEntity | internal/hub/worker.go:362-405 | row and aggregate are stored; the entry is discovered for a new entity, otherwise updated iff name, confidence, attributes or flags changed, with exactly the changed fields; it goes on to connected systems iff a network key decides |
| Worker.Hub.UpsertRelationship | internal/hub/worker.go:407-457 | row and aggregate are stored; nothing is logged iff the relationship was current and fresh and its material is the same |
| Worker.Hub.RecordConnectedChanges | internal/hub/worker.go:593-623 | one entry for each root system with a current relationship to the changed entity, and no other |
| Worker.NeighboursAre | internal/hub/worker.go:593-623 | the systems that are told are those with a current relationship to or from the entity |
| Worker.Hub.IngestEntities | internal/hub/worker.go:297-314 | the entity loop, one upsert at a time, ends in the projection recomputed from scratch; the log has each upsert's entry and notices, and stays faithful |
| Worker.Hub.IngestRelationships | internal/hub/worker.go:315-335 | the same for relationships: an entry for each origin, unless it was discovered by the same snapshot or nothing changed |
| Worker.Hub.AgeEntities | internal/hub/worker.go:459-515 | ageing all rows first and repairing the entities one at a time equals recomputing every entity; each aged entity is told once as stale or removed if it became so |
| Worker.Hub.AgeRelations | internal/hub/worker.go:516-569 | the same for relationships, told for the origin of each that is gone |
| Worker.Hub.Normalize | internal/hub/worker.go:233-360 | the whole transaction equals its specification on all five tables; the rows hold what the snapshot says and nothing else is disturbed, the source advances, the projection is consistent, and the log has exactly the entries of its upserts and ageing; a refused or repeated snapshot does nothing |
| Worker.Hub.RetireEntities | internal/hub/environments.go:791-847 | recomputing only the entities that the withdrawn sources showed equals recomputing all |
| Worker.Hub.RevokeSource | internal/hub/server.go:863-942 | an active source is withdrawn and revoked, anything else is not found and unchanged |
| Worker.Hub.RetireSource | internal/hub/environments.go:758-763 | a disconnected environment's source is withdrawn and revoked with the projection consistent |
| Worker.Hub.RemoveGitHubSource | internal/hub/github.go:610-687 | a removed repository is withdrawn with its counters at three, and exactly the entities that are gone are logged |
| Worker.Hub.Revive | internal/hub/github.go:908-908 | a source that is selected again becomes live with the sequences it had, under its new target, and the projection stays consistent |
| Worker.Hub.RevokeDevice | internal/hub/device_fleet.go:347-413 | all active sources of the target are withdrawn at once and none stays active |
| Worker.RepairedAll | internal/hub/worker.go:480-515 | repairing the subjects whose rows changed is the same as recomputing the whole projection |
| Worker.NoticesNeutral | internal/hub/worker.go:593-623 | notices without a current field, passed on to any systems, never change what a reader of the log concludes |
| Worker.AgedTold | internal/hub/worker.go:501-511 | the stale or removed entry of a repair tells exactly the new flags |
| WorkerRuns.Serve | internal/hub/worker.go:27-50 | over any ingestion-only run the tables are those of the run and replaying the change log gives every entity's current and stale flags |
| Requests.VerdictIs | internal/hub/server.go:401-549 | an exchange with a known code is accepted iff all nineteen facts about the code, the request and the device hold, and refused with the reason of the first that does not |
| Requests.ExchangeLeaves | internal/hub/server.go:540-648 | an accepted exchange leaves its target, its live source, one use less, the row and event of a policy, a refresh token and a completed setup, field by field, and nothing else |
| Registry.Organization.Exchange | internal/hub/server.go:382-663 | granted iff every check holds, the identity proof among them, and then with what ExchangeLeaves states; refused for the first check that fails, leaving every table but the audit log as it was |
| Registry.Organization.RotateCredential | internal/hub/deployment_policies.go:414-489 | issued iff the policy is live, the lifetime a minute to thirty days and the uses 1 to 100000; exactly the policy's other credentials are revoked |
| Registry.Organization.RevokeCredential | internal/hub/deployment_policies.go:491-518 | found iff it is an unrevoked credential of the policy, and exactly that one is revoked |
| Registry.Organization.RevokePolicy | internal/hub/deployment_policies.go:380-412 | found iff unrevoked; the policy and exactly its credentials are revoked |
| Registry.Organization.IssueEndpointCredential | internal/hub/endpoint_setup.go:179-207 | issued iff the endpoint setup waits; a token for fifteen minutes takes the place of the old ones |
| Registry.Organization.EnableContinuousMonitoring | internal/hub/endpoint_setup.go:91-147 | issued iff the environment is a connected quick-scan endpoint with a complete or partial scan; a continuous token takes the place of the old ones |
| Registry.Organization.CreateHandoff | internal/hub/endpoint_setup.go:209-246 | created iff the endpoint setup waits, in place of its earlier handoffs |
| Registry.Organization.RevokeHandoff | internal/hub/endpoint_setup.go:248-270 | exactly an unrevoked handoff of the environment is withdrawn |
| Registry.Organization.ResolveHandoff | internal/hub/endpoint_setup.go:272-327 | a token is issued iff the handoff is neither withdrawn nor expired and its setup waits |
| Registry.Organization.RevokeSource | internal/hub/server.go:902-911 | found iff unrevoked; exactly that source is revoked and exactly its tokens are deleted |
| Registry.Organization.DeleteTokens | internal/hub/device_fleet.go:380-383 | the loop over the device's sources deletes exactly their refresh tokens |
| Registry.Organization.RevokeDevice | internal/hub/device_fleet.go:318-415 | found iff an unrevoked endpoint; the device and exactly its sources are revoked, and the tokens of the live ones deleted, in one transaction |
| Registry.Organization.Disconnect | internal/hub/environments.go:722-786 | exactly the environment, its pending sessions, its codes, its handoffs, its source and that source's tokens end, and nothing else changes |
| Registry.UniqueLive | internal/hub/server.go:553-553 | the query for the live source of a target has at most one answer |
| EnrollmentRuns.CredentialsAlways | internal/hub/deployment_policies.go:414-518 | the four facts about credentials hold after every sequence of requests |
| EnrollmentRuns.UsesAreConserved | internal/hub/deployment_policies.go:253-271 | after every run a policy credential's limit is its remaining uses plus its enrollment rows, so the displayed counts are the rows |
| EnrollmentRuns.OneCredential | internal/hub/deployment_policies.go:391-474 | after every run a policy has at most one unrevoked credential, and a revoked policy none |
| EnrollmentRuns.ActiveIffAccepted | internal/hub/deployment_policies.go:273-284 | the page calls a credential active iff an exchange would not refuse it for its own state |
| EnrollmentRuns.RefusalsAreInvisible | internal/hub/server.go:428-437 | every run ends in the same tables, but for the audit log, as that run without all its refused attempts |
| EnrollmentRuns.SuccessesAreRows | internal/hub/server.go:609-634 | after every run the audit log has as many successes of a policy credential as it has enrollment rows, and as uses are gone |
| EnrollmentRuns.RevokedGainsNothing | internal/hub/server.go:438-441 | from its revocation on a policy credential gains no enrollment, over every run |
| Devices.RegisteredAlways | internal/hub/server.go:524-648 | after every run: at most one live source for a target and type, one environment for a source, one refresh token for a source, tokens only for live continuous sources, no live source of a revoked device |
| Devices.CrowdedIff | internal/hub/server.go:540-564 | a target gets a second live source iff a code of another type than its live source's is exchanged for it |
| Devices.AloneUniform | internal/hub/server.go:540-564 | over every run without such an exchange a target has at most one live source |
| Devices.CrowdHappens | internal/hub/server.go:540-564 | a run in which one identity key has two live sources for one target |
| Devices.SourceHistory | internal/hub/server.go:551-572 | over every run a source keeps its target, its sequence never falls, its revocation is final, and it never goes back from continuous to quick scans |
| Devices.RevokedDevice | internal/hub/device_fleet.go:380-415 | a revoked device never regains a live source |
| Devices.ExchangeBinds | internal/hub/server.go:551-648 | an accepted exchange leaves the device a live source of the code's type and mode, with the sequence it had, and a refresh token iff continuous |
| Setups.PreparedAlways | internal/hub/endpoint_setup.go:187-205 | after every run an environment has at most one unrevoked code, one pending session and one unrevoked handoff |
| Setups.SetupIsConsumed | internal/hub/server.go:590-600 | a completed setup leaves no usable code, session or handoff of its environment |
| Setups.DisconnectIsFinal | internal/hub/environments.go:741-756 | an endpoint or cluster environment disconnected by request stays disconnected over every later run |
| Setups.ReconnectIff | internal/hub/server.go:584-590 | a disconnected environment comes back iff an exchange completes a session that it still had open |
| Reconnection.ReturnIff | internal/hub/server.go:442-603 | after any run and from any time on, requests whose times do not run back can connect a disconnected environment again iff an unused token opens it for continuous monitoring and is not expired at that time; one exchange is then enough |
| Reconnection.StaysAway | internal/hub/server.go:442-603 | with no such token at a time it stays disconnected, and gets none, over every continuation from that time on |
| Reconnection.ReturnHappens | internal/hub/endpoint_setup.go:91-147 | a run in which a device moves to another environment: the upgrade prepared before can bring the first one back at exactly the times before its expiry |
| CloudQueue.Hub.RecoverLeases | internal/hub/cloud_worker.go:143-150 | an expired lease requeues a job below five attempts and fails one at five |
| CloudQueue.Hub.ClaimOne | internal/hub/cloud_worker.go:137-172 | a waiting or recovered job of a connected environment is claimed for five minutes with one attempt more, every other job is at most recovered; with none ready all is rolled back; one active job for an environment is kept, here and by every method |
| CloudQueue.Hub.FailOrRetry | internal/hub/cloud_worker.go:221-239 | only the claim's job changes, it keeps its lease and attempts and ends queued or failed by the claim's own count; no write when it would give the environment a second active job |
| CloudQueue.Hub.Submit | internal/hub/cloud_worker.go:111-134 | an ingestion is queued only for a connected environment, and the job then waits for it; a job of any other is no longer active; still one active job for an environment |
| CloudQueue.Hub.Process | internal/hub/worker.go:52-110 | a pending ingestion is ingested and applied once iff its snapshot is valid and the source of its environment live, else rejected iff it is given up; a finished one changes nothing |
| CloudQueue.Hub.KeepAlive | internal/hub/cloud_worker.go:242-243 | no job changes but in its lease, which is extended for those whose ingestion is pending and no other |
| CloudQueue.Hub.FinalizeOne | internal/hub/cloud_worker.go:244-280 | one job with a finished ingestion ends: failed iff that was rejected, partial iff ingested and partial, complete iff ingested and whole; its lease ends and nothing else changes |
| CloudQueue.Hub.Enqueue | internal/hub/cloud_worker.go:301-318 | afterwards the environment has exactly one active job, whether it had one before or not |
| CloudQueue.Hub.Verify | internal/hub/environments.go:497-585 | an open setup is connected with a live source and a first job iff the provider accepts it, else it has an error; anything else changes nothing |
| CloudQueue.Hub.Disconnect | internal/hub/environments.go:722-786 | no active job and no live source of the environment is left, and no other environment or job changes |
| CloudRuns.SoundAlways | internal/hub/environments.go:722-786 | after every run an environment has at most one active job, and a disconnected one has no live source |
| CloudRuns.AfterDisconnect | internal/hub/environments.go:741-766 | whatever workers still hold: after a disconnect no step of any run claims a job of the environment, queues an ingestion for it or applies a snapshot of its source |
| CloudRuns.ResultsAreApplied | internal/hub/cloud_worker.go:244-280 | in every run the snapshots applied for an environment are exactly its ingested ones, each once, and a job shown as complete or partial had its snapshot applied |
| CloudRuns.FinalizedAs | internal/hub/cloud_worker.go:266-271 | after every run a job shown as complete, or as partial, was finalized by a step that saw a whole, or a partial, scan |
| CloudRuns.AttemptsAreClaims | internal/hub/cloud_worker.go:165-165 | in every run a job's attempts are the number of its claims |
| CloudRuns.AtMostFiveClaims | internal/hub/cloud_worker.go:143-165 | if no worker writes after its lease was recovered, a job is claimed at most five times and a queued one has an attempt left |
| CloudRuns.OverdrawnIff | internal/hub/cloud_worker.go:221-231 | a step puts a used-up job back into the queue iff it reports a retryable failure of an early claim |
| CloudRuns.SixthClaim | internal/hub/cloud_worker.go:221-231 | a run in which a late report leads to a sixth claim |
| CloudRuns.ExhaustedIff | internal/hub/cloud_worker.go:143-163 | a used-up job without a worker ends iff its environment is disconnected or some other job is claimed |
| CloudRuns.ExhaustedBlocks | internal/hub/cloud_worker.go:301-307 | until then its environment gets no new job |
| CloudRuns.BlockedForGood | internal/hub/cloud_worker.go:143-163 | after five claims and five crashes the job stays as it is over every continuation, while its environment is connected, unless that is disconnected or some environment is verified |
| Backoff.DelayGrows | internal/hub/cloud_worker.go:224-226 | retry delays double with the attempts up to their cap and never shrink |
| Outbox.Table.ClaimOne | internal/hub/posthog_worker.go:137-193 | the claimed event is due, its actor has not opted out, and it has one attempt more and a lease of a minute; without a claim a due event of an opted-out actor is dropped, unless none is due or a statement fails, which rolls back; the counter grows at least as much as the dead events |
| Outbox.Table.Finish | internal/hub/posthog_worker.go:220-238 | only the claim's event changes, it keeps its attempts, loses its lease and gets one of the three outcomes; no event gets over ten attempts, and the process's counter grows at least as much as the dead events |
| Outbox.AtMostTenSends | internal/hub/posthog_worker.go:137-193 | under every interleaving of workers, crashes and expiries an event is sent at most ten times |
| Outbox.OptedOutUnsent | internal/hub/posthog_worker.go:171-182 | over every run, an event is not sent as long as its actor prefers not to be analysed |
| Outbox.TimelyHealthy | internal/hub/posthog_worker.go:137-238 | if every finish lands within its lease, leases are exclusive and pending or retried events have under ten attempts |
| Outbox.TimelyProgress | internal/hub/posthog_worker.go:137-238 | then delivered and dead are final and a measure falls with every claim and finish |
| Outbox.NeverStuck | internal/hub/posthog_worker.go:150-162 | then every other event can be claimed from some time on or is due for the dead letters |
| Outbox.BuriedIff | internal/hub/posthog_worker.go:143-166 | a due event is buried iff another event is claimed, or changed by its own late worker; idle polls leave it |
| Outbox.CounterBound | internal/hub/posthog_worker.go:53-55 | in every run, with crashes that start a worker's counter again at zero: the dead events are at most the counters of all workers together with what the crashed ones had counted; nothing is lost without a crash |
| Outbox.CrashForgets | internal/hub/posthog_worker.go:53-55 | a run with a dead event after which every counter is zero |
| Outbox.IdlePollsInflate | internal/hub/posthog_worker.go:147-166 | an idle poll leaves its worker's counter alone iff no event is due, and buries none |
| Outbox.PollsCountForGood | internal/hub/posthog_worker.go:147-166 | a run after which one worker's n idle polls have counted n dead letters and no event is dead |
| Outbox.RetryWaits | internal/hub/posthog_worker.go:234-236 | a failed event waits at least two and at most 256 seconds |
| Outbox.StrandedIff | internal/hub/posthog_worker.go:220-236 | a step leaves an event waiting for a retry it cannot get iff it reports an early claim's failure after the attempts are used up |
| Outbox.LateFinishStrands | internal/hub/posthog_worker.go:220-236 | a run in which that happens |
| Outbox.LostForGood | internal/hub/posthog_worker.go:150-162 | a stranded event that no worker holds stays as it is over every continuation |
| Outbox.StrandedForGood | internal/hub/posthog_worker.go:220-236 | a run after which an event is stranded whatever happens |
| Clerk.Desk.Receive | internal/hub/clerk.go:58-96 | a repeated or malformed delivery changes nothing; another one touches only the organization or user it names, no time stamp falls, and an organization row exists iff its state is active |
| Clerk.Desk.ApplyEvent | internal/hub/clerk.go:127-232 | what each kind of event writes to the organization, its state and the user, from the event's own fields and the time of the row |
| Clerk.RowIffActive | internal/hub/clerk.go:139-191 | in every run an organization row exists iff its state is active |
| Clerk.OrgIsFinal | internal/hub/clerk.go:139-191 | an organization's state is a function of the set of deliveries, up to a deletion and a save at the same latest time |
| Clerk.OrgConvergesIff | internal/hub/clerk.go:139-191 | all delivery orders agree on an organization iff its latest events are not both a save and a deletion |
| Clerk.UserConvergesIff | internal/hub/clerk.go:202-229 | all delivery orders agree on a user iff its latest events mean one status |
| Clerk.DistinctTimesConverge | internal/hub/clerk.go:127-232 | events with distinct times end in one state under every order and repetition |
| Topology.WalkIff | internal/hub/topology.go:31-51 | the recursive query finds exactly the simple, oriented, qualifying paths of one to three hops whose edges are among the first twelve of their nodes |
| Topology.WithinIs | internal/hub/topology.go:36-44 | an edge is among the first twelve of its node iff fewer than twelve others were seen later, or at the same time with a smaller id |
| Topology.WalkComplete | internal/hub/topology.go:31-51 | with at most twelve qualifying edges a node it finds all such paths |
| Topology.Reversal | internal/hub/topology.go:31-51 | reversing the downstream paths from a to b then gives exactly the upstream paths from b to a |
| Topology.ReversalIff | internal/hub/topology.go:31-51 | without that limit, a found path is found the other way iff its edges are also among the first twelve leading to their heads |
| Topology.ReversalFails | internal/hub/topology.go:31-51 | a database with thirteen edges to one node, in which a path is found downstream and not upstream |
| Topology.Check | internal/hub/topology.go:171-192 | a row is kept iff each of its ids was loaded |
| Topology.Collect | internal/hub/topology.go:61-77 | the batches cover every node and edge of the rows |
| Topology.Assemble | internal/hub/topology.go:57-196 | exactly the rows whose nodes are current entities and whose edges are current, fresh and backed by unexpired evidence, in their order |
| Topology.AnswerSound | internal/hub/topology.go:31-196 | every returned path is simple, has one to three hops between current entities, and each edge is a current, fresh relationship in the direction of the walk with unexpired evidence from a live source that still observes it |
| Topology.AnswerComplete | internal/hub/topology.go:31-196 | below the row cap and the fan-out limit the answer is exactly all such paths |
| Paging.CursorIsStrictlyAfter | internal/hub/exposure.go:519-541 | each listing's cursor predicate, the nested one of the exposures included, is exactly strictly after in its ORDER BY |
| Paging.OrdersAre | internal/hub/exposure.go:540-541 | the listings go by name and id; latest first; most severe, then latest first |
| Paging.List | internal/hub/executive.go:617-622 | the loop returns the rows, and the last of them as next cursor iff the page is full |
| Paging.PagesAreListing | internal/hub/executive.go:558-623 | following the cursor ends, and the concatenated pages are the whole sorted listing, no row lost or repeated |
| Cursors.SplitIs | internal/hub/exposure.go:519-521 | the split is at the first bar, and one part without a bar |
| Cursors.ReadIssued | internal/hub/exposure.go:519-553 | the rank and the time of every exposure come back from the cursor value issued for it |
| Cursors.AnswerIsPage | internal/hub/executive.go:558-623 | a request with the text issued for a row is answered with the page after that row and the text for the next |
| Cursors.ForeignRefused | internal/hub/executive.go:28-41 | a text that is no cursor, a cursor of another listing and one without an id are refused |
| Cursors.TextsGiveListing | internal/hub/executive.go:558-623 | a client that sends each next_cursor back gets all the pages of the sorted table, and the text is missing in the last reply only |
| Cursors.ListingsByText | internal/hub/executive.go:699-760 | the name, last-seen and exposure listings read their own cursor texts back and select strictly after them |
| Cursors.ListingsDeliver | internal/hub/executive.go:699-760 | so each of them delivers its whole sorted table through its texts |
| Cursors.QueryLimit | internal/hub/server.go:1023-1032 | a page always has room for one row, at most a thousand, and a valid limit is kept |
| Fleet.SummaryAddsUp | internal/hub/device_fleet.go:110-147 | reporting, stale, never scanned and revoked devices partition the fleet |
| Fleet.LabelIff | internal/hub/device_fleet.go:226-243 | a device's label agrees with the filter of that status but for the failed and partial ones, exactly |
| Tenant.Transaction.RecordProductEvent | internal/hub/analytics.go:154-184 | a failing event leaves the transaction as it was, and another one adds the event at most, on every way the statements can fail |
| Tenant.RecordKeepsSession | internal/hub/analytics.go:174-184 | a failing event leaves the surrounding transaction exactly as it was, also an aborted one |
| Tenant.TenantTransaction | internal/hub/tenant.go:114-153 | the middleware around any handler: 401 or 503 before it runs, its own status after a commit, 503 when the commit of a mutation fails, and its own error with the database as it was |
| Tenant.ContentIsKept | internal/hub/tenant.go:44-153 | for every handler, with nested savepoints and recorded events: the content is the database and exactly the effects that no rollback encloses, in their order |
| Tenant.MutationCommits | internal/hub/tenant.go:139-153 | a mutating request answers below 400 only if the database has exactly those effects, and every statement outside the savepoints that the handler rolled back has succeeded, whatever became of its events |
| Tenant.ErrorRollsBack | internal/hub/tenant.go:143-149 | an unflagged error answer leaves the database unchanged, a flagged one changes it only by a commit |
| Tenant.FirstStatusCounts | internal/hub/tenant.go:68-79 | the first status a handler writes is the answer |
| Tenant.ReadingIsHarmless | internal/hub/tenant.go:131-138 | a reading request leaves the database alone unless its handler writes after all |
| Tenant.SavepointUndoes | internal/hub/tenant.go:44-52 | a rolled-back savepoint undoes all that came after it, nested savepoints and failures included, as long as it stayed open |
| RateLimit.Limiter.Admit | internal/hub/rate_limit.go:35-60 | the counter is raised once, the request passes iff it is within the limit, and Retry-After lands after the window by a second at most |
| RateLimit.Limiter.Purge | internal/hub/worker.go:356-356 | a counter goes iff its window and the one after it are over, and the others are left as they are |
| RateLimit.AcceptedIff | internal/hub/rate_limit.go:38-49 | a request passes iff fewer than limit came before it with the same scope, key and window, whatever other keys and purges did |
| RateLimit.WindowLimit | internal/hub/rate_limit.go:38-49 | of the requests of an aligned window exactly the first limit are accepted |
| RateLimit.IntervalLimit | internal/hub/rate_limit.go:38-49 | at most twice the limit is accepted in any interval of window length |
| Quoting.ShellRoundTrip | internal/hub/setup_instructions.go:197-199 | POSIX quote removal gives back the single word v iff v has no NUL |
| Quoting.ShellInContext | internal/hub/setup_instructions.go:197-199 | anywhere in a command the shell adds exactly the value to its word and goes on after it |
| Quoting.PowershellRoundTrip | internal/hub/setup_instructions.go:201-203 | PowerShell reads the value back iff it has no typographic single quote |
| Quoting.TypographicIsLost | internal/hub/setup_instructions.go:201-203 | a value with the quotation mark U+2019 does not come back |

## Left out

- HTTP parsing and JSON writing, SQL text, migrations, network clients, cloud provider adapters, scanners, the CLI, the Kubernetes informers and the web interface.
- Cryptography: signatures, hashes and tokens are opaque or injective.
- Isolation anomalies of the database: a disconnection racing with an ingestion is one before the other.
- `last_seen_at` of entities and relationships: an upsert writes the snapshot's time, a recomputation the maximum of the rows.
- Evidence rows, their expiry, and the purge of old changes, ingestion jobs and environments; they do not touch the modelled columns.
- The posture table and exposure findings: the root systems that receive a network change are a parameter, and a neighbour's posture may lag.
- Catalog entities and relationships, which have no source observations.
- Summaries and texts of change log entries.
- Membership roles and status and organization names in Clerk events: they do not converge by design. A managed user's row without a time, left by account deletion, is read as older than any event.
- Job-level retries of an ingestion: the status, attempts and delay of ingestion_jobs beyond pending, applied and rejected.
- The progress, phase, error and analytics columns of scan jobs, and the notification of a first scan.
- GitHub reconciliation and cloud setups among the enrollment requests; their environments are modelled only in the scan queue.
- Names, platforms, versions and the current flag of targets and sources, which no modelled guard reads; the unique external id of a cluster environment is one of the failures that `stored` stands for.
- The requests that only insert a code, a policy or a setup are steps of the runs without a method of their own.
- The policy's name, depth and configuration and their validation.
- The order of the claim queries: any ready row may be claimed, which covers every order.
- Topology.AnswerComplete: the order by node ids among rows of one depth is not modelled, so above eighty rows only the depth decides what is known to be returned.
- Cursors.ListingsDeliver: lower-casing in Go and in the database are taken to agree, and a table that changes between two pages is not modelled.
- RateLimit.Limiter.Admit: clock skew between replicas is not modelled.
- Quoting.ShellRoundTrip: expansions, operators and comments outside quotes are not interpreted; a line with one of them has no word list here.
