# Verified model of the PostgreSQL operator

The operator keeps four stores in agreement without any transaction across them: Kubernetes objects, Vault secrets,
PostgreSQL catalogs and passwords, and certificate files. This project models the step sequences it uses for that,
under retries, lost acknowledgements, interference and crashes, and proves what every step keeps and what whole runs
guarantee.

## How the model works

`Cluster.Remote` is the outside world. Every remote call has one of three outcomes (applied and acknowledged, applied but
reported as failed, not applied), drawn from an arbitrary schedule, and may be preceded by an act of somebody else. The
class keeps a ghost trace of all acts and the state between any two, so a crash is a trace that stops: properties of every
act of the trace hold wherever it stops. `Calm(n)` says that from call n on nothing fails and nobody interferes; the exact
recovery properties are stated for calm reconciles from arbitrary starting states.

| file | content |
|---|---|
| `Basics.dfy`, `Backoff.dfy` | the backoff arithmetic and its bounds |
| `ErrorChains.dfy` | structured errors and chain matching |
| `GrantSql.dfy` | the printer of GRANT statements and a reader for its output |
| `Cluster.dfy` | world, acts, trace, remote calls |
| `VaultStore.dfy` | secret paths, reads and writes of secrets, the Vault retry wrappers |
| `PostgresOps.dfy`, `DesiredState.dfy` | the PostgreSQL operations, the retry loop, and what runs of them guarantee |
| `AdminSteps.dfy`, `AdminCredentials.dfy` | registration and rotation of administrator credentials: the protocol as a program that only knows its own answers, and the reconciles that are runs of it |
| `UserPasswords.dfy` | the user password protocol |
| `Composition.dfy` | all controllers together |
| `DatabaseLifecycle.dfy`, `DatabaseHistory.dfy` | the Database object, its finalizer and its database; what runs of its reconciles guarantee |
| `Certificates.dfy` | certificate files, renewal loop, lock |
| `Admission.dfy` | validators, duplicate checks, lookups |

## What the proofs show about the program

- The live administrator password is never lost from Vault in any run (`Composition.LiveInEveryRun`), but an instance
  that stops between ALTER and commit is not healed by any number of reconciles (`AdminCredentials.CrashAfterAlter`,
  `AdminCredentials.ReconcileRepeatedly`): rotation is only attempted once the listed password works. Recovery happens
  exactly from the states in which it works (`AdminCredentials.RecoveryIsExact`).
- The user password protocol repairs any disagreement in one undisturbed reconcile (`UserPasswords.StoresAgree`). Under
  faults, and without UpdatePassword, as long as reads of a stored password work and nobody else writes it, a password
  is stored for good and PostgreSQL is from then on only ever told that one (`UserPasswords.ReconcileUserRepeatedly`,
  `UserPasswords.OnceStored`).
- A CREATE DATABASE that takes effect without being acknowledged costs the schema its owner for good
  (`DesiredState.SchemaOwnerIff`, `DesiredState.LostCreateLosesTheSchema`).
- "No CREATE or ALTER once the deletion timestamp is set" holds of the object as last fetched, and not of the stored
  object: a CREATE or ALTER meets an object that is being deleted exactly if the deletion was requested after the fetch
  (`DatabaseHistory.StatementsMeetTheObject`), the object is gone by then exactly if no finalizer was left
  (`DatabaseHistory.GoneIffLetGo`), and the database is made all the same (`DatabaseHistory.CreateAfterDeleteRequest`).
  Likewise a DROP is not stopped by taking back DeleteFromCRD or the finalizer
  (`DatabaseHistory.DropAfterItIsTakenBack`). Unless others edit the object after the fetch, it is there and calls for
  the very statement (`DatabaseHistory.StatementsMatchTheObject`).
- A write of the admin secret that is repeated after a lost acknowledgement, be it the commit of a rotation or the
  registration of the default credentials, drops a `new_password` that was requested in between
  (`AdminCredentials.RetriedWriteLosesRequest`). Neither loses a request without such a lost acknowledgement
  (`AdminCredentials.CommitLosesOnlyAfterLostAck`, `AdminCredentials.RegistrationLosesOnlyAfterLostAck`).
- A failed certificate issue that got as far as the key leaves an old certificate beside a new key, until an issue
  succeeds (`Certificates.MatchingAfterIssue`).
- `Wrap` drops whatever its base already wrapped (`ErrorChains.WrapDropsTheBaseChain`), and matching a foreign target
  against n structured errors visits 2^n - 1 nodes (`ErrorChains.VisitCount`).
- Identifier quoting identifies names that differ only after a NUL character, and no others
  (`GrantSql.QuotingCollides`).

## Model

| member | source | states |
|---|---|---|
| `Backoff.CalculateBackoff` | internal/postgresql/retry.go:39-53 | the delay lies between the capped delay m and m + m/4, and is m itself when the random source fails |
| `Backoff.CappedIsMonotone` | internal/postgresql/connection.go:49-63 | the capped delay never decreases with the attempt number |
| `Backoff.TotalWaitBound` | internal/controller/connection_retry.go:37-51 | the pauses of n attempts add up to at most 75 s a pause and at most 5/4 of the uncapped geometric sum |
| `Backoff.WaitingIsBounded` | internal/postgresql/retry.go:56-103 | any series of delays the arithmetic can return for attempts 1, 2, 3 ... stays within that total |
| `Cluster.Remote.Pause` | internal/postgresql/connection.go:67-77 | waiting takes at most the longest delay of the attempt where the delay arithmetic is exact, and may be canceled |
| `ErrorChains.MatchingIsMembership` | internal/errors/errors.go:154-159 | matching terminates on every finite chain, and holds exactly if some node of the chain matches |
| `ErrorChains.ClassIsChainMembership` | internal/errors/errors.go:265-284 | an error is not-found, connection or retryable exactly if some structured node carries one of the class's code and message pairs |
| `ErrorChains.WithOpKeepsClass` | internal/errors/errors.go:88-95 | adding an operation changes no class; every connection error is retryable |
| `ErrorChains.WrapClass` | internal/errors/errors.go:108-128 | a wrapped error is in a class exactly if the base's own pair or the underlying error is |
| `ErrorChains.WrapStackClass` | internal/errors/errors.go:108-128 | the same for any stack of wraps, so wrapping never takes an error out of a class |
| `ErrorChains.WrapDropsTheBaseChain` | internal/errors/errors.go:108-128 | a base that wraps a timeout is retryable, but not after it has been used to wrap another error |
| `ErrorChains.VisitCount` | internal/errors/errors.go:154-159 | n structured errors are visited 2^n - 1 times for a foreign target and n times for a structured one |
| `ErrorChains.AsErrorFindsTheFirst` | internal/errors/errors.go:287-293 | the first structured node of the chain is found, and none only if there is none |
| `GrantSql.IdentifierRoundTrip` | internal/postgresql/operations.go:65-68 | reading a quoted identifier under the double-quote rule gives the name back, whatever quotes, dots and spaces it has, and stops right behind it |
| `GrantSql.QuotingCollides` | internal/postgresql/operations.go:65-68 | two names are quoted alike exactly if they agree up to their first NUL |
| `GrantSql.PrinterSucceedsIff` | internal/postgresql/operations.go:593-661 | a statement is printed exactly if the type is known and not a database, and its fields are not empty |
| `GrantSql.GrantRoundTrip` | internal/postgresql/operations.go:573-646 | reading a printed statement recovers type, fields, role and privilege list |
| `GrantSql.DatabaseGrantRoundTrip` | internal/postgresql/operations.go:431-462 | the same for grants on a database |
| `GrantSql.DefaultPrivilegeRoundTrip` | internal/postgresql/operations.go:686-719 | the same for default privileges |
| `GrantSql.PrinterIsInjective` | internal/postgresql/operations.go:573-683 | different grants never print the same statement |
| `VaultStore.PathsAreInjective` | internal/vault/vault.go:403-405 | with IDs free of '/', a secret path determines ID and username |
| `VaultStore.DefaultPathIsApart` | internal/vault/vault.go:201 | no ID and username have the path of the default secret |
| `VaultStore.SlashesCollide` | internal/vault/vault.go:144-146 | an ID with '/' can put an admin secret where another instance keeps a user's secret |
| `VaultStore.GetCredentials` | internal/vault/vault.go:132-186 | login and password, not found only if Vault says so, an error if either is empty |
| `VaultStore.GetInstanceAdminNewPassword` | internal/vault/vault.go:279-326 | the requested password, empty if none, or not found |
| `VaultStore.GetPostgresqlUserCredentials` | internal/vault/vault.go:390-434 | the stored password; a missing secret is an ordinary error |
| `VaultStore.RotateInstanceAdminPassword` | internal/vault/vault.go:330-387 | commits the new password under the login found at the moment of the write, dropping the request; without a login nothing is written |
| `VaultStore.ReadWithRetry` | internal/controller/connection_retry.go:54-140 | a failure means that no attempt could have succeeded; the first answer, a missing secret included, ends the loop and is what Vault has at that moment; attempts are bounded, and so is total waiting where the delay arithmetic is exact |
| `VaultStore.WriteWithRetry` | internal/controller/connection_retry.go:143-183 | only ever writes this one secret, a rotation only under the login that the read right before it found; success rests on an acknowledged write; total waiting is bounded where the delay arithmetic is exact; without faults the write happens exactly if it can |
| `VaultStore.WriteOnce` | internal/vault/vault.go:437-468 | one write: which secret, and with what whole content |
| `PostgresOps.CreateOrUpdateUser` | internal/postgresql/operations.go:151-210 | success means that the server has this password by an acknowledged statement; without faults exactly the user changes |
| `PostgresOps.GetCurrentMembers` | internal/postgresql/operations.go:213-241 | the members that exist as roles, with no statement sent |
| `PostgresOps.AddMembers` | internal/postgresql/operations.go:244-302 | desired roles that exist become members, duplicates included; only missing ones are granted |
| `PostgresOps.RemoveMembers` | internal/postgresql/operations.go:244-302 | in every order of the map, only undesired members are revoked and exactly the desired existing ones are left |
| `PostgresOps.SyncRoleGroupMembers` | internal/postgresql/operations.go:244-302 | no statement outside the difference between actual and desired members; success leaves exactly the desired existing roles |
| `PostgresOps.CreateOrUpdateRoleGroup` | internal/postgresql/operations.go:305-366 | success means role and membership as desired; without faults it comes exactly if no role that is to be added is the group itself or a group it belongs to; a second synchronisation sends no statement |
| `PostgresOps.NewGroupTakesAll` | internal/postgresql/operations.go:305-366 | a group that does not exist yet can be given any list that does not name itself |
| `PostgresOps.CreateOrUpdateDatabase` | internal/postgresql/operations.go:37-148 | success leaves the database with its owner and all others unchanged; schema ownership only follows an acknowledged CREATE of the same attempt; without faults the whole resulting world is given |
| `PostgresOps.DeleteDatabase` | internal/postgresql/database_deletion.go:82-137 | success means that the database is gone and all others are unchanged, whether it existed or not, and rests on the server's own confirmation, the last thing it says; the database it connects to is never dropped; without faults the whole resulting world is given |
| `PostgresOps.SplitGrants` | internal/postgresql/operations.go:511-562 | the split into database and other items keeps their order |
| `PostgresOps.FilterPartitions` | internal/postgresql/operations.go:511-562 | the split loses and duplicates nothing |
| `PostgresOps.FilterSelects` | internal/postgresql/operations.go:511-562 | no database item reaches the printer of the others, and no other item the database grants |
| `PostgresOps.ApplyGrants` | internal/postgresql/operations.go:511-562 | success means that the server holds every privilege asked for and that no item was incomplete or unknown; without faults that, an existing role and a way in are enough |
| `PostgresOps.ApplyDatabaseGrants` | internal/postgresql/operations.go:431-462 | success means that the server holds the privileges of all database items |
| `PostgresOps.ApplyNonDatabaseGrants` | internal/postgresql/operations.go:466-508 | success means that the server holds the privileges of all other items and defaults |
| `PostgresOps.ApplyDefaultPrivileges` | internal/postgresql/operations.go:686-719 | success means that the server holds all default privileges, and every object type was known |
| `PostgresOps.ExecuteOperationWithRetry` | internal/postgresql/retry.go:56-103 | success means that one whole attempt, the last, succeeded whatever earlier ones half did; every act is one the operation may do; total waiting is bounded where the delay arithmetic is exact; fewer than one retry never succeeds; without faults an operation that cannot be done leaves the world as it was |
| `PostgresOps.TestConnection` | internal/postgresql/connection.go:117-168 | connected means that the server accepts the credentials at that moment, and nothing is written |
| `DesiredState.GapShrinks` | internal/postgresql/operations.go:244-302 | no act of a membership sync widens the gap between actual and desired members, and every effective GRANT or REVOKE narrows it strictly |
| `DesiredState.RoleGroupProgress` | internal/postgresql/retry.go:56-103 | over any stretch of partly failed attempts, whatever came before it, the gap never grows, and members stay between current*desired and current+desired |
| `DesiredState.AchievedIffNoGap` | internal/postgresql/operations.go:305-366 | the goal of a membership sync is exactly an empty gap |
| `DesiredState.GrantsOnlyAdd` | internal/postgresql/operations.go:431-508 | no act of a grant synchronisation takes a privilege away or adds one that was not asked for |
| `DesiredState.GrantsAreExact` | internal/postgresql/retry.go:56-103 | after any stretch of failed and successful attempts, the goal holds exactly if the privileges are those at its start plus those asked for |
| `DesiredState.OrderDoesNotMatter` | internal/postgresql/operations.go:511-562 | two servers with equal privileges, synchronised in any number of attempts with the same items in different orders and repetitions, end with equal privileges |
| `DesiredState.OnlyThisDatabaseRun` | internal/postgresql/operations.go:37-148 | stretches of creating, updating or deleting a database leave every other database alone, and an update never drops |
| `DesiredState.OnlyThisDatabase` | internal/postgresql/database_deletion.go:82-137 | no act of creating, updating or deleting a database touches another database, a role, a membership or a privilege |
| `DesiredState.SchemaOwnerIff` | internal/postgresql/operations.go:37-148 | the schema ends up with its owner exactly if the successful attempt found no database or it was owned that way already |
| `DesiredState.LostCreateLosesTheSchema` | internal/postgresql/operations.go:37-148 | a concrete server on which a lost acknowledgement of CREATE leaves the schema with the template's owner |
| `AdminSteps.AllowedKeepsSafe` | internal/controller/postgresql_controller.go:97-318 | no act a reconcile may do, for this or another instance, loses the live credential |
| `AdminSteps.ProgramIsSound` | internal/controller/postgresql_controller.go:97-318 | a reconcile that acts only on the answers to its own calls sends nothing that could lose the live credential, whatever the world has done since those answers, as long as they are still true; and what it relies on next is true |
| `AdminSteps.KnowledgeStays` | internal/controller/postgresql_controller.go:167-271 | everything a reconcile has read about an instance stays true under whatever leaves its credentials and pending request alone |
| `AdminCredentials.FollowsIsSafe` | internal/controller/postgresql_controller.go:97-318 | in every window of such a program every act is allowed, and the instance is safe at its end |
| `AdminCredentials.ResolveInstanceCredentials` | internal/controller/postgresql_controller.go:167-209 | the default credentials are used only if Vault has no secret for the instance; nothing is written |
| `AdminCredentials.StoreInstanceAdminCredentials` | internal/controller/postgresql_controller.go:212-235 | under any faults the secret holds the credentials that just worked, or is not there yet; its acts are a run of the program |
| `AdminCredentials.HandleInstanceAdminPasswordRotation` | internal/controller/postgresql_controller.go:238-318 | under any faults only the requested ALTER and a commit of PostgreSQL's own password are sent; without faults the request is completed exactly |
| `AdminCredentials.ReadRotationRequest` | internal/controller/postgresql_controller.go:245-271 | request and credentials, though read one after the other with others acting in between, belong together when the ALTER starts |
| `AdminCredentials.ChangeAdminPassword` | internal/controller/postgresql_controller.go:273-312 | ALTER first, commit only after an acknowledged ALTER and under the login read again: its acts are a run of the program; without faults exactly the rotation |
| `AdminCredentials.InstanceStatus.UpdateConnectionStatus` | internal/controller/postgresql_controller.go:322-358 | the status says what the connection test found; changed is reported exactly if it differs from before |
| `AdminCredentials.RunProtocol` | internal/controller/postgresql_controller.go:97-147 | out of sync, or without Vault, no fault whatsoever makes a reconcile write anything |
| `AdminCredentials.ReconcileExternalInstance` | internal/controller/postgresql_controller.go:97-162 | its acts are a run of the program of `AdminSteps`; every one under any faults keeps the live credential; out of sync stays out of sync; without faults the result is exactly the recovered state |
| `AdminCredentials.ReconcileRepeatedly` | internal/controller/postgresql_controller.go:97-162 | no number of faulty or faultless reconciles heals an instance that is out of sync |
| `AdminCredentials.RecoveryIsExact` | internal/controller/postgresql_controller.go:112-147 | a fault-free reconcile ends in sync exactly if it began in sync; then the request is applied and removed, the login kept and nothing else touched; otherwise nothing changes |
| `AdminCredentials.RegistrationIsExact` | internal/controller/postgresql_controller.go:167-235 | exactly if the default credentials work, they become the instance's own |
| `AdminCredentials.CrashAfterAlter` | internal/controller/postgresql_controller.go:273-301 | stopping between ALTER and commit leaves the instance out of sync exactly if the new password is a different one |
| `AdminCredentials.PutLosesRequestIff` | internal/vault/vault.go:330-387 | a write of the secret loses a request exactly if one for another password than the one written is pending |
| `AdminCredentials.CommitLosesOnlyAfterLostAck` | internal/controller/connection_retry.go:143-183 | a commit writes over a request for another password only if an earlier write of the same commit took effect without being acknowledged |
| `AdminCredentials.RegistrationLosesOnlyAfterLostAck` | internal/controller/postgresql_controller.go:212-235 | the same for a registration: it writes over a request for another password only if an earlier write of it took effect without being acknowledged |
| `AdminCredentials.RetriedWriteLosesRequest` | internal/controller/connection_retry.go:143-183 | whenever the program is writing the secret, to commit or to register, it can lose its acknowledgement, repeat the write and so lose the request of another password made in between: the run is given |
| `UserPasswords.GenerateRandomPassword` | internal/controller/user_controller.go:177-196 | as many characters as asked for, all from the character set; fails only if the random source does |
| `UserPasswords.HandleVaultUserPassword` | internal/controller/user_controller.go:214-288 | only this user's secret is written; unless the User asks for a new one or others write there, a stored password that can be read is never replaced, and what is stored afterwards, if anything, is the password returned |
| `UserPasswords.StoreGeneratedPassword` | internal/controller/user_controller.go:247-287 | while a new password is being stored where none was, and nobody else writes there, under any faults nothing stored is replaced and nothing but the returned password is ever stored |
| `UserPasswords.SyncUserAndStatus` | internal/controller/user_controller.go:120-173 | statements set exactly this password; a saved hash is the one before or of a password whose statement the server accepted and acknowledged earlier |
| `UserPasswords.ResolveAdminCredentials` | internal/controller/base_reconciler.go:202-234 | the administrator's credentials, empty exactly if no read brought any, under any faults; nothing is written |
| `UserPasswords.ResolveUserConnection` | internal/controller/user_controller.go:76-90 | without a connected instance only the status is saved, with the hash it had |
| `UserPasswords.ReconcileUser` | internal/controller/user_controller.go:53-105 | under any faults only this user is touched, saved hashes are earned, and as long as reads of a stored password work and nobody else writes it, it stays and every statement sends the one stored at that moment; without faults the three stores agree from any start |
| `UserPasswords.StoresAgree` | internal/controller/user_controller.go:53-173 | after one fault-free reconcile from any state Vault's and PostgreSQL's passwords are the same non-empty one, the hash is its hash, and everything else is unchanged |
| `UserPasswords.SecondTimeNothingChanges` | internal/controller/user_controller.go:214-240 | without UpdatePassword a second fault-free reconcile changes nothing |
| `UserPasswords.ReconcileUserRepeatedly` | internal/controller/user_controller.go:120-288 | over any run, every saved hash is the first one or of an acknowledged password; and with Vault on, at least one attempt and no UpdatePassword, as long as reads of a stored password work and nobody else writes it, from whatever was stored at the start, no stored password ever changes and every statement sends the one stored at that moment |
| `UserPasswords.OnceStored` | internal/controller/user_controller.go:120-288 | in such a run, from any moment at which a password is stored: it stays stored, every later statement sends exactly it, and every one that takes effect makes it PostgreSQL's |
| `Composition.UserActsLeaveOthersAlone` | internal/vault/vault.go:437-468 | a step for one user leaves every admin secret and every other user's secret and password as they are |
| `Composition.AdminActsLeaveUsersAlone` | internal/vault/vault.go:245-274 | a step of a registration or rotation leaves every user's secret and password as they are |
| `Composition.OthersChangeNothing` | internal/controller/base_reconciler.go:77-129 | no act of the user, database, role group or grant controllers, or of other people, changes anything a reconcile of an instance may have read |
| `Composition.AdminActsLeaveOtherInstances` | internal/controller/postgresql_controller.go:97-318 | nor does a reconcile of another instance |
| `Composition.OperatorActKeepsSafe` | internal/controller/base_reconciler.go:77-129 | no act of any controller loses a live administrator credential |
| `Composition.InterleavingStep` | internal/controller/base_reconciler.go:77-129 | one act of any actor, met in whatever state the others have left, keeps every instance safe and everything every reconciler relies on true; the act itself is an allowed one |
| `Composition.LiveInEveryRun` | internal/controller/postgresql_controller.go:97-318 | in every state of every interleaving of the reconcilers of all instances, each acting only on its own answers, with all other controllers and other people, with any faults, lost acknowledgements, crashes and restarts: an admin secret holds PostgreSQL's password as password or new_password, and every act of a reconciler is an allowed one |
| `Composition.LifecycleIsOperatorActs` | internal/controller/database_controller.go:54-110 | the database controller does nothing that this composition does not cover |
| `Composition.OperationsAreOperatorActs` | internal/postgresql/retry.go:56-103 | nor do the database, role group and grant operations |
| `Composition.UserReconcilesAreOperatorActs` | internal/controller/user_controller.go:53-105 | nor do reconciles of users |
| `DatabaseLifecycle.ContainsString` | internal/controller/helpers/strings.go:20-27 | found exactly if it is in the list |
| `DatabaseLifecycle.RemoveString` | internal/controller/helpers/strings.go:30-38 | every occurrence goes; all other items stay, as often as they are there and in order |
| `DatabaseLifecycle.EnsureFinalizer` | internal/controller/database_controller.go:114-133 | an object that is to be guarded goes on without the finalizer only after a failed attempt to add it |
| `DatabaseLifecycle.SyncDatabaseObject` | internal/controller/database_controller.go:136-196 | created is saved as true exactly if the operation succeeded, and then the database is there with its owner; without faults the whole resulting world is given |
| `DatabaseLifecycle.RemoveDBFinalizer` | internal/controller/database_controller.go:199-210 | the finalizer of an object whose database is to be dropped is taken off only after a confirmed drop, or, with nothing but reads since the fetch, when Vault is off or never read, no lookup found the instance connected, or every read of the credentials failed |
| `DatabaseLifecycle.FindAdmin` | internal/controller/database_controller.go:215-254 | giving up always has one of three reasons: no connected instance, no Vault, or credentials that every attempt to read failed to bring |
| `DatabaseLifecycle.ResolveDeletionConnection` | internal/controller/database_controller.go:215-254 | without faults: the administrator's credentials exactly if the instance is connected and Vault has them, otherwise the finalizer goes |
| `DatabaseLifecycle.DropAndFinalize` | internal/controller/database_controller.go:279-308 | the finalizer is touched exactly if the drop succeeded, and right after the server confirmed it; otherwise only the status is saved |
| `DatabaseLifecycle.HandleDeletion` | internal/controller/database_controller.go:257-309 | every act is proper for the fetched copy; without faults the whole resulting world is given |
| `DatabaseLifecycle.ReconcileDatabase` | internal/controller/database_controller.go:54-110 | under any faults and edits every act is proper given what came before it; without faults the whole resulting world is given, for deletion, guarding and creation |
| `DatabaseLifecycle.ReconcileDatabaseRepeatedly` | internal/controller/database_controller.go:54-110 | the same for any number of reconciles |
| `DatabaseHistory.WritesHitTheSeen` | internal/controller/database_controller.go:199-210 | a write of the object takes effect only on exactly the object that was fetched |
| `DatabaseHistory.FinalizerLeavesOnlyWithReason` | internal/controller/database_controller.go:199-309 | in every run: the finalizer leaves an object only with a deletion timestamp, and if its database was to be dropped, only when the server has confirmed the drop and the database is gone, or, with nothing but reads since the fetch, when Vault is off or never read, no lookup found the instance connected, or no read brought credentials |
| `DatabaseHistory.OtherFinalizersStay` | internal/controller/helpers/strings.go:30-38 | all other finalizers keep their order under every act of the operator |
| `DatabaseHistory.ObjectIsCopyPlusEdits` | internal/controller/database_controller.go:83-110 | while it is there, the stored object is the fetched copy with the edits of others since; the operator changes nothing of it but finalizers |
| `DatabaseHistory.StatementsMeetTheObject` | internal/controller/database_controller.go:83-110 | a CREATE or ALTER meets a stored object with deletion timestamp exactly if the deletion was requested since the fetch; a DROP always meets one, and one with DeleteFromCRD and finalizer exactly if the edits since the fetch left them |
| `DatabaseHistory.GoneIffLetGo` | internal/controller/database_controller.go:83-110 | the object is not there throughout since the fetch exactly if some write since has left it without finalizers under a deletion timestamp, the fetched one or one requested since |
| `DatabaseHistory.CreateAfterDeleteRequest` | internal/controller/database_controller.go:83-110 | a concrete proper run in which the database of an object that is being deleted, or is gone if it had no finalizer, is created |
| `DatabaseHistory.DropAfterItIsTakenBack` | internal/controller/database_controller.go:257-309 | a concrete proper run in which the database is dropped although DeleteFromCRD or the finalizer has been taken back since the fetch |
| `DatabaseHistory.StatementsMatchTheObject` | internal/controller/database_controller.go:83-110 | unless others edit the object after the fetch, it is there when a statement is sent; DROP meets it with deletion timestamp, DeleteFromCRD and finalizer, CREATE and ALTER without deletion timestamp, and the statement is for the instance and database it names |
| `DatabaseHistory.DeletionEnds` | internal/controller/database_controller.go:257-309 | a fault-free deletion ends without the finalizer exactly if there are no usable credentials or ones that can drop the database, and without the database in the second case; the object goes exactly if that was its last finalizer; no other database changes |
| `DatabaseHistory.CreationEnds` | internal/controller/database_controller.go:136-196 | a fault-free creation ends with created true and the database with its owner exactly if that can be done; otherwise no server changes; no other database and nothing else of the object does |
| `Certificates.VaultPKIManager.WritePKICertFiles` | internal/cert/vault_pki.go:189-224 | whoever reloads on a change of the certificate file finds its own key and CA chain |
| `Certificates.VaultPKIManager.IssueCertificateAndWriteToDisk` | internal/cert/vault_pki.go:96-169 | after every single write the certificate is not newer than the CA chain, nor that than the key; the end of the certificate moves exactly if its file was written |
| `Certificates.MatchingAfterIssue` | internal/cert/vault_pki.go:189-224 | when the three files match after an issue, exactly |
| `Certificates.DueBeforeTheEnd` | internal/cert/vault_pki.go:257-311 | the next attempt comes before the certificate expires exactly if there is a buffer and either it has not begun or more than a minute is left |
| `Certificates.VaultPKIManager.RenewalTurn` | internal/cert/vault_pki.go:257-311 | one turn of the loop in time: when it tries, and what certificate it finds |
| `Certificates.VaultPKIManager.RenewalLoop` | internal/cert/vault_pki.go:257-311 | over any run from a new, readable certificate, an attempt finds an expired one exactly if more attempts in a row have failed than are tolerated |
| `Certificates.AttemptsBeforeExpiry` | internal/cert/vault_pki.go:257-311 | of the attempts for a certificate, exactly the first ceil(B/60s) (ceil(L/60s)-1 if L <= B) come before it expires |
| `Certificates.StepKeepsInvariant` | internal/cert/vault_pki.go:108-109 | the order of the files and the exclusion of readers are kept by every step of every thread, crashes included |
| `Certificates.ReadersSeeWholeIssues` | internal/cert/vault_pki.go:335-368 | in every interleaving, whoever reads the certificate under the lock sees the files as the last issue left them |
| `Certificates.IssueIsALockedRun` | internal/cert/vault_pki.go:96-224 | an issue as the manager writes it, file by file, is a run of the machine of threads and leaves the same files |
| `Admission.FindPostgresqlByID` | internal/k8s/crd_verification.go:28-43 | the first object with the ID; none exactly if there is none or no list |
| `Admission.DatabaseExists` | internal/k8s/crd_verification.go:67-82 | true exactly if some object has the ID and the name |
| `Admission.FindIgnoresOrder` | internal/k8s/crd_verification.go:28-43 | with unique keys a lookup is the same for every permutation of the list |
| `Admission.OrderMattersForDuplicates` | internal/k8s/crd_verification.go:28-43 | with a duplicate it is not |
| `Admission.CheckDuplicate` | internal/k8s/duplicate_check.go:39-263 | a duplicate is reported exactly if another object, itself excepted on update, has the key |
| `Admission.HandlePostgresql` | internal/webhook/postgresql_validator.go:40-110 | exactly when an instance is allowed, and exactly when which error is returned |
| `Admission.HandleGrant` | internal/webhook/grant_validator.go:40-144 | exactly when a grant is allowed, and exactly when which error is returned, given the order of the checks |
| `Admission.HandleOther` | internal/webhook/user_validator.go:41-132 | exactly when an object of the remaining kinds, the owner of a schema included, is allowed, and exactly when which error is returned |
| `Admission.ApiServer.Validate` | internal/webhook/grant_validator.go:84-128 | whatever is allowed refers to objects that exist and has a key nobody else of its kind has |
| `Admission.ApiServer.Submit` | internal/webhook/postgresql_validator.go:76-106 | admission and commit as one step keep the keys of every kind unique |
| `Admission.ApiServer.Process` | internal/k8s/duplicate_check.go:39-263 | any sequence of creates, updates, key changes included, and deletions keeps the keys of every kind unique |
| `Admission.ApiServer.Lookup` | internal/k8s/crd_verification.go:28-43 | so every list of the instances, in any order, gives the same instance for an ID |

## Left out

- Assumptions: one operator at a time; IDs without '/'; no User object names an administrator; two IDs never share a
  server; password authentication, so an empty login or password never connects; others add `new_password` only when
  none is pending, and write only user secrets and the passwords of users that are not administrators. A fetch brings the
  object as it is stored at that moment: the manager reads through a cache, and a copy that was already out of date when
  it was read is not modelled.
- HTTP to Vault, SQL drivers and connection strings, the Kubernetes client: abstract stores with the three outcomes. The
  PostgreSQL server is modelled by the effect of the statements the operator sends. A statement or query that fails, a
  server that cannot be reached and a rejected password are one failure.
- The value of `LastSyncAttempt` and `LastConnectionAttempt`, events, logs, metrics, tracing and the wording of messages.
- Conditions other than the Ready condition of a Postgresql object: the status of User and Database objects is reduced to
  `created` and the password hash. Updates of a User's or Postgresql's status always fit; a version conflict is an
  unapplied call.
- SHA-256 is an arbitrary function, random numbers are arbitrary. X.509 and PEM parsing: a certificate is its issue
  number and its end. Certificate files are written atomically; `RenewalLoop` treats attempts as instantaneous.
- The value of the delay where the floating-point conversion is inexact or undefined (outside `Backoff.Defined`): there
  it is arbitrary and only the bounds on waiting do not hold. Negative base delays.
- The interference inside a reconcile method is that of `Cluster.Outside`. That the acts of the other controllers may come
  in between as well is stated of the program that the reconcile of an instance is a run of (`Composition.LiveInEveryRun`);
  the exact results of a reconcile are stated without them.
- More than one Database object at a time: one object is followed through its life.
- CreateOrUpdateSchema and the Schema, Grant and RoleGroup reconcilers around the operations: they repeat the same shape.
- ResolveDeletionConnection: the three calls that take the finalizer off before giving up are one call after `FindAdmin`.
- Concurrent admissions between list and commit.
- The webhook's own credential fallback (`resolveVaultCredentials`), the metrics collector, setup, flags and configuration.
- Liveness under faults that never stop: recovery is stated for reconciles without faults.
