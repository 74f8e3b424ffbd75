# Hemlig control plane: a verified model

Hemlig keeps all of its control state in one DynamoDB table that many programs change at once, by small
conditional transactions. This project models that table, its writers and its readers, and proves what holds
over every interleaving of their requests.

## What is modelled

**Secrets and revisions.** `Revisions` is one secret: its HEAD, its CONTROL and PAYLOAD workflow rows, its
immutable objects, its access rows, and every client working on it with the locals it has read so far. Each
conditional write is one atomic step; a step whose condition fails changes nothing, or ends its client as the
thrown error does. `ControlPlane` is the whole table: all secrets, LOOKUP items, the sync STATE and CHANGE rows,
a clock, and fresh ids. `Run` takes any sequence of steps of any clients: creates, updates by name, updates by
UID, archives, the publish retry loop, lease expiry, takeover and late completion, recovery, aborts, retention,
TTL deletion and backfills. `RevisionInvariants`, `AccessInvariants`, `ControlPlaneInvariants`,
`IndexInvariants` and `NameInvariants` are the invariants; `ControlPlaneTheorems`, `AclReads`, `NameIdentity`,
`NameHistory`, `AclDiscipline`, `CallerRules`, `VersionIdentity` and `WriterProgress` are the results, and
`RaceRun` and `NameRace` a run that breaks two of them without their conditions. `ControlTable` is the table as an
object whose methods are the requests, each proved equal to a step, so that the programs with loops
(`TablePrograms`, `IndexBackfill`, `SyncRequests`) are proved with arbitrary other clients running between
their requests. `LeaseRecovery` says what recovery can take back, and `RecoveryRun` what it leaves of an update
that stopped with the lease.

**Agent synchronization.** `AgentSync` is the endpoint (STATE read, token check, one page query, with writes
between the three) and an agent that pages, loses replies, restarts and continues from checkpoints.
`SyncIndex` says how the index can change between two moments; `AgentSyncTheorems` proves convergence.

**The Kubernetes controller.** `ImportController` is a pass over imports as the client of that endpoint and of the
agent read API, with grant records and two-step grant edits as part of the state (`AgentGrants`,
`ImportGrants`). `ImportControllerTheorems` and `ImportFetches` are the results, `NameReuse`, `ImportRuns`,
`ImportRace` and `IdentityRace` the runs that break them. `ReconcileScheduler` is how passes are scheduled.

**The rest.** `Enrollment` is the enrollment workflow with its shared truststore lease, `AgentAccess` the
reconciliation of an agent's read access (`TableAccess` ties its starting point to the table), `UidMigration`
the UID migration planner, `Der` the DER writer and reader of certificate requests, and `TableKeys` the sort
keys of CHANGE rows and of the secret catalog.

## Findings

Properties that the code does not have on every input. Each has a run or an input in the project, and the
condition under which the property holds.

| property | where | input that breaks it | when it holds |
|---|---|---|---|
| A secret with a non-empty ACL is the one its name resolves to | src/repositories/dynamo.ts:1353-1385, 1897-1913; src/services/secrets.ts:190-254 | An update that replaces the ACL resolves the name, an archive commits, and the update's If-Match names the archive's revision, which the revision history lists while it is only PREPARED (`NameRace.RaceBreaksNames`) | Throughout a run exactly when no commit carries an ACL while its secret is without its name (`NameIdentity.IdentityThroughout`); a caller ensures it by naming a committed revision (`CallerRules.NamesStayIdentities`) |
| A read under a name that was resolved earlier is authorised exactly when the secret is ACTIVE and its current ACL grants it | src/services/secrets.ts:402-449, 625-635 | A second such update whose If-Match names the first one's revision before that id is issued: it finds no access row under the lost name and leaves the first reader's row readable (`NameRace.ForeseenReplacementBreaksReads`) | Always while the name still resolves to the secret (`AclReads.NamedReadsFollowTheAcl`). After that, for all consumers at every moment exactly as long as each commit of this secret that leaves it ACTIVE accounts for its stored rows: rewriting them it has looked up or names every consumer that can still read, and skipping the rewrite it finds the new readers in place (`AclReads.StaleReadsFollowExactly`). Requests that name issued ids suffice (`CallerRules.ReadsFollowTheAcl`) |
| A skipped import holds the granted secret's current revision | src/services/agent-grants.ts:107-146; src/repositories/dynamo.ts:520-545 | A grant edit resolves a name, stalls while the secret is archived and its name reused, and writes last: the record names the archived secret again (`ImportRace.StalledEditBreaksImports`) | In every run in which no grant write brings back a secret that has lost its name, and the next row's case does not occur (`ImportControllerTheorems.SkippedImportsAreCurrent`); edits that finish before their names change hands suffice (`ImportFetches.PromptRunsAreOrderly`) |
| A skipped import holds the granted secret's current revision, second way | packages/kubernetes-controller/src/v1beta.ts:429-438 | The identity is replaced by another consumer's for a pass and then restored, so that the saved checkpoint of the first is used again (`IdentityRace.RestoredIdentityBreaksImports`) | As above |
| A fetch returns the secret that the import selects | src/services/agents.ts:44-63 | The name has been reused since the pass's sync, and the grant record now names the new secret: the second pass of `ImportRace.StalledEditBreaksImports`, just before it reads | Exactly when no authorised fetch is made while LOOKUP gives the import's name to another secret that is ACTIVE and whose current ACL names the consumer, wherever the selected secret's revision counts (`ImportFetches.FetchesAreExact`) |
| Recovery releases the lease of an expired update | src/handlers/recovery.ts:88-103; src/repositories/dynamo.ts:2219-2259, 2599-2600 | Any update or archive that stops once it has the lease: the cancelled abort carries another error name than the one recognised, so the handler throws before it releases, and HEAD keeps the expired lease (`RecoveryRun.ExpiredUpdateKeepsItsLease`, reached from an empty table in `RecoveryRun.RefusedAbort`) | An abort goes through exactly for a marked create that still holds its own HEAD and LOOKUP (`LeaseRecovery.AbortIsExact`), so never once the secret has a revision; the next writer takes the expired lease over (`WriterProgress.UpdateCommits`) |
| Reading a written DER length gives it back | packages/console/src/api/csr.ts:105-125 | A length of 2^31 or more: the shifts wrap to a negative number, and from 2^32 on the reader gives up | Exactly below 2^31 (`Der.LengthRoundTrip`) |
| A written object identifier decodes back | packages/console/src/api/csr-generate.ts:139-153 | First two arcs that fold to 128 or more, such as 2.48 | Exactly when they fold below 128 (`Der.OidRoundTrip`) |

## Model

| member | source | states |
|---|---|---|
| Domain.ProjectionTestIsSetInequality | src/repositories/dynamo.ts:2514-2535 | Comparing sizes and then membership decides whether the readers of the new ACL and of the prior rows differ |
| Domain.RewriteIsExactly | src/repositories/dynamo.ts:2482-2535 | Whatever prior rows the client has read: the rows left by the rewrite, or left alone, are readable exactly by the new ACL's readers if and only if the rewrite reaches every row that is still readable, or the skipped one finds the new readers in place |
| Domain.AccessRewriteIsExact | src/repositories/dynamo.ts:2482-2535 | Writing the access items, or skipping them when the readers are the same, leaves exactly the new ACL's readers readable, if the prior rows are the stored rows of the old ACL |
| RevisionInvariants.PrepareKeeps | src/repositories/dynamo.ts:1796-1924 | A prepare keeps the invariant of the secret's head, rows, objects, clients, jobs and log |
| RevisionInvariants.CommitKeeps | src/repositories/dynamo.ts:1926-2124 | A commit whose transaction conditions hold keeps that invariant |
| AccessInvariants.CommitKeepsAccess | src/repositories/dynamo.ts:2080-2089 | A commit by the lease holder of a secret that has its name, or one that replaces no grant, leaves the readable access rows exactly the readers of the new ACL, also when the rows are not rewritten |
| AccessInvariants.CommitFollowsExactly | src/repositories/dynamo.ts:2080-2089 | Named or not, the rows of a secret follow the committed ACL exactly when the commit accounts for every stored row |
| ControlPlaneInvariants.RunKeepsCells | src/repositories/dynamo.ts:1796-2286 | Every interleaving of all clients keeps every secret's invariant and every LOOKUP at a secret of that name |
| ControlPlaneTheorems.NoLostUpdate | src/services/secrets.ts:190-254 | In every run the committed revisions of a secret form one chain, each built from its predecessor, and while an update holds the lease HEAD carries the revision it was computed from |
| ControlPlaneTheorems.ReferencedObjectsSurvive | src/handlers/retention.ts:9-67 | In every run a READY head's control and payload objects exist and hold what its commit wrote, although retention deletes after a stale head read |
| ControlPlaneTheorems.RowsNeverSplit | src/repositories/dynamo.ts:2024-2043 | An operation's CONTROL and PAYLOAD rows are settled together, exactly when it has committed |
| ControlPlaneTheorems.MarkedNeverCommits | src/handlers/recovery.ts:74-103 | Once recovery has marked one of its rows, an operation never commits and its revision never becomes a head |
| ControlPlaneTheorems.PublicationIsAtomic | src/repositories/agent-sync.ts:129-226 | In every run a secret has at most one CHANGE row, no sequence is used twice or lies above the counter, and each row is what the head's current revision publishes |
| ControlPlaneTheorems.PublishedRowStays | src/repositories/agent-sync.ts:129-226 | A published secret that is not archived always has its row, with its current revision |
| ControlPlaneTheorems.CommitReplacesItsOwnRow | src/repositories/agent-sync.ts:141-185 | Although STATE and HEAD are read apart, a publish attempt whose counter still holds knows the head's stored sequence, removes the secret's only row and writes above every other |
| AclReads.NamedReadsFollowTheAcl | src/services/secrets.ts:402-449 | In every run, a read under a name that resolves now is authorised exactly when the secret is ACTIVE and its current ACL grants it |
| AclReads.StepKeepsAgreement | src/repositories/dynamo.ts:2080-2089 | A step keeps a secret's reads exact exactly when it is not a commit that leaves the secret ACTIVE with a stored row unaccounted for |
| AclReads.StaleReadsFollowExactly | src/services/secrets.ts:402-449 | From the moment a name is resolved, the reads of all consumers under it stay exact through any further writes exactly as long as no step is such a commit of that secret |
| AclReads.ReadFollowsTheAcl | src/services/secrets.ts:402-449 | With any writes between resolving the name and reading, a read is authorised exactly when the resolved secret is ACTIVE and its current ACL grants it, if the name still resolves to it or no such commit has happened since |
| CallerRules.ReadsFollowTheAcl | src/services/secrets.ts:402-449 | The same, whatever has become of the name, for every run in which requests that change an ACL name, in If-Match, an id that had been issued |
| AclDiscipline.DisciplineSuffices | src/repositories/dynamo.ts:1897-1913 | If ACL changes name issued ids, no commit of the run replaces a grant of a secret without its name; if ACL replacements name committed revisions, none carries an ACL under a lost name |
| CallerRules.NamesStayIdentities | src/services/secrets.ts:190-254 | In every run in which ACL replacements name committed revisions, a LOOKUP names a live secret of that name, and a secret with a non-empty ACL is the one its name resolves to |
| NameIdentity.NamesAreIdentities | src/repositories/dynamo.ts:1859-1896 | The same for every run without a commit that carries an ACL under a lost name |
| NameIdentity.StepKeepsIdentity | src/repositories/dynamo.ts:2067-2079 | A step keeps name identity exactly when it is not such a commit |
| NameIdentity.IdentityThroughout | src/repositories/dynamo.ts:2067-2079 | Name identity holds throughout a run exactly when the run has no such commit |
| NameIdentity.NameLostIsAbove | src/repositories/dynamo.ts:2067-2079 | A step that takes a secret's name away publishes its archive above the counter, or removes a head that was never published |
| NameHistory.NamesNeverReturn | src/repositories/dynamo.ts:1885-1896 | A secret that had its name and lost it never has it again |
| NameRace.RaceBreaksNames | src/repositories/dynamo.ts:1353-1385 | A run whose requests all name issued ids, after which a secret's ACL names a reader although its name resolves to nothing |
| NameRace.ForeseenReplacementBreaksReads | src/services/secrets.ts:625-635 | A run after which a reader is let in although the current ACL names only another consumer; its last commit leaves the first reader's row unaccounted for |
| TableAccess.ReconcileMayStart | src/services/secrets.ts:349-388 | After every run with committed If-Match revisions, names, secrets and ACLs are a valid start for access reconciliation, and the consumer's readable rows are the secrets whose ACL names it |
| VersionIdentity.VersionsAreUnique | src/services/secrets.ts:190-254 | In every run, two committed revisions with one id are the same revision of the same secret |
| WriterProgress.LeaseHolderCommits | src/repositories/dynamo.ts:1926-2124 | In any reachable table a lease holder whose rows are unmarked commits with its next requests if nobody else acts |
| WriterProgress.UpdateCommits | src/repositories/dynamo.ts:1897-1913 | An expired lease never blocks: an update or archive that names the current revision commits the revision it asked for, built on the current one |
| WriterProgress.CreateCommits | src/services/secrets.ts:110-135 | A create of a free name commits if nobody else acts |
| ControlTable.Table.PrepareMutation | src/repositories/dynamo.ts:1796-1924 | The request on the stored maps leaves the table the prepare step leaves |
| ControlTable.Table.CompleteMutation | src/repositories/dynamo.ts:1926-2124 | The transaction writes head, rows, access, LOOKUP, counter and CHANGE row together or nothing, and reports which |
| ControlTable.Table.CompleteBackfill | src/repositories/agent-sync.ts:229-271 | The same for the backfill's transaction |
| ControlTable.Table.AbortPreparedCreate | src/repositories/dynamo.ts:2219-2259 | HEAD and LOOKUP of a prepared create go together, exactly when the conditions hold |
| ControlTable.Table.MarkRowRetryable | src/repositories/dynamo.ts:2167-2189 | A row is marked exactly when it is PREPARED and expired |
| TablePrograms.PersistMutation | src/services/secrets.ts:524-606 | Whatever the other clients do, success is reported exactly when the operation has committed, its revision being the current one at that moment; otherwise no revision of it is in the log or current |
| TablePrograms.GroupByOperation | src/handlers/recovery.ts:9-14 | One group per operation, each holding that operation's items in listed order |
| LeaseRecovery.AbortIsExact | src/repositories/dynamo.ts:2219-2259 | An abort changes the table exactly when the marked operation is a create that has not committed and still holds the HEAD it prepared and its LOOKUP |
| LeaseRecovery.UpdateIsNeverAborted | src/repositories/dynamo.ts:2219-2259 | Of a secret that has a revision, an abort takes nothing away |
| TablePrograms.MarkRows | src/handlers/recovery.ts:74-79 | Some row was marked exactly when one of the rows was PREPARED and expired, if nobody else acts; a marked row stays marked whoever acts |
| TablePrograms.RecoverOperation | src/handlers/recovery.ts:74-103 | An operation passed on has a RETRYABLE row; an aborted create has lost HEAD and LOOKUP; for a secret that had a revision the abort is always refused with a throw, and, if nobody else acts, HEAD with its lease is as it was |
| RecoveryRun.ExpiredUpdateKeepsItsLease | src/handlers/recovery.ts:88-103 | Whatever update or archive stops with the lease of the current revision: after the lease has expired, recovery throws and HEAD still carries that lease |
| RecoveryRun.RefusedAbort | src/handlers/recovery.ts:88-103 | A run from an empty table to such a lease |
| TablePrograms.Recover | src/handlers/recovery.ts:6-103 | Over all groups and with other clients between all requests, every operation handled keeps what was done to it; only a throw ends the loop early |
| TablePrograms.Retain | src/handlers/retention.ts:6-56 | What the handler deleted stays deleted and marked, no head names it, and every READY head still has its objects |
| TablePrograms.RunKeepsRow | src/repositories/dynamo.ts:2274-2285 | RETRYABLE and DELETED rows keep their state whatever runs |
| SyncIndex.RunEvolves | src/repositories/agent-sync.ts:129-226 | Between two moments of a run the counter and sequences only grow, rows at or below the old counter are old rows, a row goes only by republication or expiry, and archived rows keep their eight days less the commit lag |
| AgentSyncTheorems.SyncConverges | src/services/agent-sync.ts:35-159 | Over every interleaving of writes with pages, lost replies and restarts, an agent with a checkpoint holds exactly the current entry, revoked ones included, of every secret published at or below it; only an archived secret whose row has expired may be missing |
| AgentSyncTheorems.SyncedIsSnapshot | src/services/agent-sync.ts:72-138 | At the head of the index the agent's view of every published secret is what a fresh snapshot would deliver |
| AgentSyncTheorems.DeliveredOnce | src/services/agent-sync.ts:104-138 | No cycle delivers a secret twice |
| AgentSyncTheorems.RevocationOutlivesCheckpoints | src/repositories/agent-sync.ts:186-195 | Under the lag bound, an archived row above a checkpoint is still there for every page read derived from that checkpoint |
| AgentSyncTheorems.ResetOnlyWhenDue | src/services/agent-sync.ts:161-206 | An agent's own token is reset exactly when its item is gone, it has expired, or the grant has changed |
| SyncRequests.QueryPage | src/repositories/agent-sync.ts:94-126 | The page is exactly the rows of its range in key order, up to the key to continue from |
| SyncRequests.Client.RequestPage | src/services/agent-sync.ts:35-159 | One request, with other clients between its reads, continues or completes the cycle with exactly the page's changes, or reports the error that a reset comes with |
| SyncRequests.Client.Synchronize | packages/kubernetes-controller/src/v1beta.ts:493-538 | The loop returns a completed cycle whose entries carry the current revisions at or below the new checkpoint |
| IndexBackfill.PublishHead | src/repositories/agent-sync.ts:229-271 | The retry loop, with other clients between its requests; reported publication means that the head has a sequence |
| IndexBackfill.BackfillAgentSync | src/scripts/backfill-agent-sync.ts:12-94 | With other clients writing between its requests, a completed run has set readiness only with every READY head in the index |
| IndexBackfill.CompleteForever | src/repositories/agent-sync.ts:273-297 | A complete index stays complete whatever runs |
| ImportControllerTheorems.SkippedImportsAreCurrent | packages/kubernetes-controller/src/v1beta.ts:716-745 | Over every run without a reviving grant write or a restored identity, an import left alone has an owned, intact copy of the granted secret's current revision, where that was published at or below the pass's frontier |
| ImportControllerTheorems.SavedCheckpointIsCovered | packages/kubernetes-controller/src/v1beta.ts:373-386 | In those runs a saved checkpoint never outruns what its imports have recorded |
| ImportFetches.FetchIsExact | src/services/agents.ts:44-63 | What an authorised fetch is about to return is right exactly unless LOOKUP has given the name to another ACTIVE secret whose ACL names the consumer, and the selected secret's revision counts |
| ImportFetches.FetchesAreExact | src/services/agents.ts:44-63 | Over a run, every fetch is accurate exactly when none is made under a name so taken over |
| ImportFetches.PromptRunsAreOrderly | src/services/agent-grants.ts:107-146 | Runs whose grant writes name what their names resolve to at the write, and that restore no identity, meet the condition of skip safety |
| AgentGrants.PromptWritesReviveNothing | src/services/agent-grants.ts:282-302 | A write that names what its names resolve to brings back no secret |
| ImportRace.StalledEditBreaksImports | src/services/agent-grants.ts:107-146 | A run of the table, of grant edits and of a controller after which an import is skipped although its copy is another secret's; on the way a fetch under the name that was taken over is inaccurate, and the last write revives an archived secret |
| IdentityRace.RestoredIdentityBreaksImports | packages/kubernetes-controller/src/v1beta.ts:429-438 | The same outcome after an identity has been replaced and restored |
| ReconcileScheduler.Scheduler.NextRetryDelay | packages/kubernetes-controller/src/v1beta.ts:1221-1228 | The drawn backoff lies between half the ceiling and the ceiling unless a larger Retry-After was given |
| ReconcileScheduler.Scheduler.ScheduleReconcile | packages/kubernetes-controller/src/v1beta.ts:1168-1187 | The pending due time becomes the earlier of the two, and every demand stays covered |
| ReconcileScheduler.Scheduler.FireTimer | packages/kubernetes-controller/src/v1beta.ts:1180-1186 | A firing timer begins a pass, or leaves the rerun flag to the running one |
| ReconcileScheduler.Scheduler.EndPass | packages/kubernetes-controller/src/v1beta.ts:387-403 | After a pass the next one is called for within the event delay, or after a throw within the drawn backoff, of its end, by the timer or the run loop's wait |
| ReconcileScheduler.Drive | packages/kubernetes-controller/src/v1beta.ts:254-282 | Over any events, for each request a pass began after it, or the timer is due no later than it asked, or a running pass held it back and the next pass is called for within the allowed delay of that pass's end |
| Enrollment.EnrollmentLockstep | src/repositories/dynamo.ts:1401-1687 | In every run an operation, its identity, its consumer and the operation the consumer names are in one of the three joint states, and no two operations that have not failed share a consumer |
| Enrollment.SettledForever | src/repositories/dynamo.ts:1547-1687 | READY and FAILED operations stay so, with their consumer serving or never serving |
| Enrollment.OnlyHolderChangesBundle | src/services/consumers.ts:282-350 | Only a step for the lease holder's operation changes the recorded or current bundle, and the current one only as that operation becomes READY |
| AgentAccess.Store.Revoke | src/services/secrets.ts:303-341 | Removes the consumer from the secret the name resolves to and touches nothing else |
| AgentAccess.Store.Grant | src/services/secrets.ts:637-668 | Adds the consumer only to the granted secret, never to one that has taken its name over |
| AgentAccess.Store.Reconcile | src/services/secrets.ts:349-388 | However it ends, access stays within what there was and what is desired, and nothing desired is lost; on normal return it is exactly the desired secrets that were readable or still have their name |
| AgentAccess.Store.ReconcileTwice | src/services/secrets.ts:349-388 | A second run after a normal return writes nothing |
| UidMigration.CollectIdentities | src/scripts/migrate-secret-uids.ts:157-194 | The scan succeeds exactly when all heads of a name agree, and then yields their identities |
| UidMigration.ReplanIsRest | src/scripts/migrate-secret-uids.ts:65-155 | Planning a partly migrated table plans exactly the missing moves and grant updates, with the same targets, and every LOOKUP again |
| UidMigration.ResumedRunAgrees | src/scripts/migrate-secret-uids.ts:524-598 | Wherever a run was cut off, planning again and applying that plan gives the table of an uninterrupted run |
| UidMigration.FinishedIsFixpoint | src/scripts/migrate-secret-uids.ts:574-596 | The finished table plans no move, grant update or issue and lacks no LOOKUP |
| UidMigration.NothingIsLost | src/scripts/migrate-secret-uids.ts:65-155 | Every row is unchanged, or found under its target as planned, or its updated grant, or a LOOKUP of the plan |
| UidMigration.Store.ApplyPlan | src/scripts/migrate-secret-uids.ts:544-573 | The apply loop, cut off anywhere, leaves exactly the writes made so far |
| Der.EncodeLength | packages/console/src/api/csr-generate.ts:103-114 | The loop writes the definite form of section 8.1.3 of X.690 |
| Der.LengthRoundTrip | packages/console/src/api/csr.ts:105-125 | Reading a written length gives it back exactly below 2^31, and what it gives above; long forms are minimal |
| Der.ConcatBytes | packages/console/src/api/csr-generate.ts:91-99 | The fresh array holds the parts in order |
| Der.TreeRoundTrip | packages/console/src/api/csr-generate.ts:118-131 | Reading back any forest written with the TLV helpers returns it, at any depth |
| Der.EncodeOid | packages/console/src/api/csr-generate.ts:139-153 | The nested loops write the subidentifiers of section 8.19 of X.690, with the first two arcs folded into one octet |
| Der.OidRoundTrip | packages/console/src/api/csr-generate.ts:139-153 | Arcs decode back exactly when the first two fold below 128 |
| Der.IndexOfSequence | packages/console/src/api/csr.ts:127-137 | The first occurrence, or none |
| Der.ModulusBits | packages/console/src/api/csr.ts:60-103 | The scanner answers the first key at or after the first RSA identifier, and nothing if there is no identifier or no key |
| Der.KeyIsRead | packages/console/src/api/csr.ts:65-97 | At a written public key the scanner reads the length of the modulus without its sign octet |
| Der.ModulusIsRead | packages/console/src/api/csr.ts:60-103 | In any request whose first RSA identifier is its key's algorithm, the scanner answers that key's modulus length in bits |
| TableKeys.RangeIsExact | src/repositories/agent-sync.ts:104-113 | The BETWEEN range selects exactly the sequences above one number and up to another, up to 2^53 - 1 |
| TableKeys.PrefixIsSubtree | src/repositories/dynamo.ts:2342-2357 | A catalog key begins with the query prefix exactly when the secret lies in that folder or below |
| TableKeys.GroupLevel | src/repositories/dynamo.ts:1218-1240 | The secrets of the level in listed order and exact folder counts; over the ids the query returns they add up to all of them |

## Left out

- Writing the control and payload objects is one step of a client, although the service writes two objects.
- A TransactionConflict is treated like a failed counter: the attempt is read and sent again. A reply that is lost after its transaction committed is not modelled for a mutation; replies to agents can be lost.
- Waiting between retries, page sizes in bytes, and how long anything takes, except for leases, TTLs, tokens and the bounds named in the contracts.
- Notifications are only counted as transaction actions; their content, the audit log and idempotency keys are left out, and so is the check that an ACL names consumers of the environment.
- Digests and checksums are taken as injective, new ids as fresh, and the migration's UID derivation as injective on the names it meets.
- `seen`, `frontier`, `before` and the commit log are kept for the specification; the service does not store them.
- Releasing a lease is allowed to any step for an operation that recovery has marked, which is more than the handler does.
- ACL entries are unique per consumer, as a map; the cap of 40 grants and the choice of catalog tags and search are left out.
- Grant records can be created and activated at any time, which is more than the service allows; the parsing of their fields and the access reconciliation before a write are not part of `AgentGrants`.
- One HemligConsumer at a time; import conditions, watches, the MQTT hints and the Kubernetes API beyond status, target and checkpoint are left out.
- The scan of the backfill and of the migration returns every row that was there when it began: a precondition of those methods.
- Legacy grants with unreadable scope fields stop the migration before it writes, and appear only as the plan's issues; table keys are structured values there.
- The object that an enrollment stores for its truststore: it is written put-or-get under the operation's key, so a retry may be handed the bundle of an earlier attempt, while the model takes the stored bundle to hold the roots listed last.
- Enrollment operations other than enrolling a consumer, retired roots, and the polling of the delivery domain are left out; the truststore steps of one call can be arbitrarily late.
- The sorting of folders and secrets by locale, and archived catalogs.
- Certificates, key generation and signatures around the DER helpers.
- ImportControllerTheorems.SkippedImportsAreCurrent: the condition goes one way; a run that breaks it may still be lucky, and each of its two parts has a run that fails without it.
- AgentAccess.Store.Reconcile: without concurrent writers, as the guarantee is stated by the service.
