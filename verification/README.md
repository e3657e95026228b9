# LockGate: a verified model

LockGate keeps versioned, encrypted secrets. An application presents a token, waits until an
administrator approves it, and then receives the decrypted secrets inside its boundary. This
project models the store, the approval protocol, the key handling, the polling clients, the login
limiter and the authenticator of LockGate in Dafny, and proves what they keep over whole runs.

`dafny verify dfyconfig.toml` checks everything.

## How the model is laid out

| Files | What they hold |
|---|---|
| `Results`, `Text`, `Paths` | errors; byte strings, splitting, the bytewise order, decimals; the path and pattern language |
| `Envelopes`, `KeyProvider`, `Sealing` | envelope encryption under an ideal AEAD, its printed context, and the key buffers it runs on |
| `Vault` | the versioned secret table and the plain store it stands for |
| `Database`, `Protocol`, `History` | the tables and SQL statements; `Access`, `Poll`, `Resolve` and `ChangeApplication` as atomic transactions; whole runs |
| `Statements`, `Sequential`, `Locality`, `Interleaving`, `Serialisability` | the same transactions one statement at a time, any number of them in flight, and the theorem that every interleaving is an atomic run |
| `Effects`, `Invariants`, `Runs`, `Deeds` | closed forms of what a transaction writes, the approval invariant, the refinement of the plain store |
| `Contracts`, `Answers` | each call written out on the rows and the plain store: every error in its order, every row afterwards |
| `Lifecycle`, `Handles`, `Delivery`, `Presence`, `Decisions`, `Boundaries`, `Noninterference`, `AuditLog` | theorems over whole runs: revocation, frozen requests, idempotent instances, exact delivery, archived paths, denials, the boundary last set, separation of applications, the audit log |
| `Completion`, `Restarts` | a transaction, a start and a writer that nothing disturbs come to their ends |
| `Storage` | the store as an object whose methods run the transactions, with rollback |
| `MasterKey`, `Startup` | creating or loading the master key; starts, crashes, restarts and secret writers, statement by statement |
| `Client`, `Composition`, `Tightness`, `Dialects` | the Go client's loop, the client against this server, a run that meets its bound, and the JavaScript and Python loops |
| `RateLimiter`, `Totp`, `Mfa` | the login limiter; one-time passwords; the authenticator's state machine |

Two levels describe the protocol. On the first, each call is one function from tables to tables and
an answer (`Protocol.Atomic`). On the second, each SQL statement is a step (`Statements.Exec`): it
sees the committed tables and the transaction's own writes, an application row has one lock holder
at a time, and a transaction commits or rolls back. `Serialisability.Serialisable` connects the two,
so every statement about runs of the first level is one about interleavings of the second.

## Where the code and what is said about it differ

* The repository's README promises at most 10 login attempts per address in 10 minutes. Each window
  admits 10, but two windows can meet inside one interval: some closed interval of 10 minutes admits
  19 attempts, and none admits more (`RateLimiter.NineteenAtMost`, `RateLimiter.NineteenReached`).
  `RateLimiter.TenExactly` says when the promise holds: ten is the bound for an interval, whatever
  attempts come in it, exactly when it begins while the address has no open window or a full one.
* RFC 6238 accepts the step before, the step and the step after. Within the first 30 seconds of 1970
  the code's division towards zero and its wrap to 64 bits give other counters;
  `Totp.VerifiesExactly` states them all.
* A printed encryption context could equal an authenticator's context for one family of key versions,
  those that begin with `1:`. `Envelopes.SeedContextCollision` gives the exact condition. No envelope
  gains by it, because both sides of an opening carry the same key version:
  `Envelopes.SealedOpensOnlyInContext` holds for every key version.
* An imported key file is stored without a check that it opens the data already there: any readable
  file can become the key (`Startup.AnyFileIsImported`). `Startup.OpensWithTheRightKey` says what then
  opens: a legacy version or seed exactly when the file held the key it was sealed under, and
  everything written since in any case.

## Assumptions

* AES-GCM is an ideal AEAD: a box opens under exactly its key, nonce and context. SHA-256 is injective.
* Identifiers, tokens and keys drawn at random are inputs of the calls; a call requires that the ones
  it draws are not in use.
* `ORDER BY path` uses the bytewise collation, so it orders as `sort.Strings` does.
* JSON is an inverse pair on string maps; its size in bytes is an input of `SaveSecret`.
* The only statement that inserts a grant leaves its expiry null. Expiry is modelled where it is
  checked, and the invariant says that stored grants have none.

## Model

| member | source | states |
|---|---|---|
| Paths.PathLanguage | internal/secure/secure.go:108-112 | the regular expression, read by its denotation, accepts exactly the strings of length 1 to 512 of allowed characters with no separator at an end and no two adjacent; the `..` test is redundant |
| Paths.AllowedMeaning | internal/secure/secure.go:116-126 | for valid patterns, string prefix matching means: equal to an exact pattern, or the segments of a `/*` pattern are a proper prefix of the path's segments |
| Paths.PrefixSegments | internal/secure/secure.go:121 | a string starts with a base and a slash exactly when the base's slash-separated segments are a proper prefix of its own |
| Paths.PathsWrittenOut | internal/secure/secure.go:108-112 | a path has 1 to 512 letters, digits, underscores, hyphens, dots and slashes, with no dot or slash first, last or beside another |
| Paths.PatternsWrittenOut | internal/secure/secure.go:113-115 | a pattern is a path, or a path with a slash and a star behind it |
| Paths.AllowedWrittenOut | internal/secure/secure.go:116-126 | a path is allowed exactly by itself or by a starred base and slash it begins with |
| Paths.NormalizePaths | internal/store/store.go:276-293 | the loop over a seen map followed by the sort yields the canonical path list, or the same error |
| Paths.NormalizeCanonical | internal/store/store.go:276-293 | two accepted path lists normalise alike exactly when they hold the same set of paths |
| Paths.PrintedInjective | internal/store/access.go:175 | comparing newline-joined path lists is comparing the lists |
| Text.SortedUnique | internal/store/store.go:291 | a set of strings has one strictly sorted listing |
| Text.LessWrittenOut | internal/store/store.go:291 | the order is bytewise: a proper prefix, or the smaller character at the first difference |
| Text.SplitJoin | internal/store/access.go:175 | joined pieces that do not hold the separator come back by splitting |
| Text.ParseDecimal | internal/secure/secure.go:252 | the printed decimal of a number reads back as that number |
| Envelopes.ContextInjective | internal/secure/secure.go:252 | over secret paths the printed associated data determines path, version and key version |
| Envelopes.SeedContextCollision | internal/store/admin.go:94 | a secret's context equals an authenticator's context exactly for the secret `admin-totp` and a key version beginning with `1:`; never for a colon-free one |
| Envelopes.OpensExactlySealed | internal/secure/secure.go:263-296 | an envelope opens to a plaintext exactly when it was sealed from it, for that path and version, under a held key |
| Envelopes.PurposesApart | internal/store/admin.go:94 | under one key version no two secret versions and no two authenticators share a context, nor does a secret with an authenticator |
| Envelopes.SealedOpensOnlyInContext | internal/secure/secure.go:233-296 | a sealed envelope opens for one purpose and one key only, and then to what was sealed: never for another path, version or administrator, a secret's never as a seed, a seed's never as a secret |
| KeyProvider.NewMemoryKeyProvider | internal/secure/secure.go:142-154 | accepts exactly well-formed key material and holds fresh copies of it |
| KeyProvider.MemoryKeyProvider.Current | internal/secure/secure.go:156-158 | hands out a fresh copy of the current key |
| KeyProvider.MemoryKeyProvider.Key | internal/secure/secure.go:160-166 | hands out a fresh copy of a held key, and fails for any other version |
| Sealing.SealEnvelope | internal/secure/secure.go:233-262 | sealing with a borrowed copy of the key yields the envelope of the specification |
| Sealing.OpenEnvelope | internal/secure/secure.go:263-296 | opening with a borrowed copy of the key gives exactly the specified plaintext or failure |
| Vault.MaxVersion | internal/store/secrets.go:80 | the greatest stored version, or zero |
| Vault.ReadRefines | internal/store/secrets.go:100-118 | reading the sealed table is reading the plain one, for the newest and for every numbered version; nothing fails to decrypt |
| Vault.WriteRefines | internal/store/secrets.go:78-99 | a write is numbered n+1, appends one value to the plain history and leaves every older envelope in place |
| Vault.ArchiveRefines | internal/store/secrets.go:182-199 | archiving sets the tombstone and keeps the history |
| Runs.RunRefines | internal/store/secrets.go:51-199 | over every run the encrypted store stands for the plain one |
| Runs.ApplyRefines | internal/store/secrets.go:51-199 | every call moves the plain store as the plain operation does; a view shows the newest plain value, a save answers its number |
| Runs.VersionsImmutable | migrations/001_initial.sql:25-34 | an envelope once stored as a version stays there, unchanged, for the rest of every run |
| Contracts.SavedSecret | internal/store/secrets.go:51-99 | a save with 1 to 500 values, names of 1 to 256, values up to 65536 and JSON up to 1048576 bytes appends one value, answers n+1, revives the path and logs created for the first version and updated for every other; any other save is Invalid and changes nothing |
| Contracts.RestoredSecret | internal/store/secrets.go:150-180 | a restore appends the named version once more and logs the write and the restore; below 1 it is Invalid, and for a version that does not exist NotFound |
| Contracts.ArchivedSecret | internal/store/secrets.go:182-199 | an archive answers Archived exactly for a live path, keeps its history and logs it; a second one is NotFound |
| Contracts.ViewedSecret | internal/store/secrets.go:119-133 | an administrator sees the newest value, of an archived path too, and the read is logged |
| Contracts.CreatedApplication | internal/store/store.go:184-217 | bad names or patterns are Invalid, a taken name is refused, and otherwise the application starts enabled with its patterns, one live token and one event |
| Contracts.ResolutionRefused | internal/store/access.go:261-283 | an unknown request is NotFound; a disabled application or a request that is not pending is a Conflict; nothing changes |
| Contracts.Resolution | internal/store/access.go:271-293 | approving stores approved and one active grant without expiry, denying stores denied and no grant; both record the administrator and the event |
| Contracts.AlterationRefused | internal/store/store.go:232-263 | an unknown application is NotFound; an unknown action or bad patterns are Invalid; nothing changes |
| Contracts.AlteredRow | internal/store/store.go:246-275 | a path change gives the application exactly the given patterns and no other change touches them; only disabling and enabling touch the flag; name and environment stay; the event has the action's kind |
| Contracts.AlteredTokens | internal/store/store.go:239-245 | a rotation kills the application's tokens and adds a live one; nothing else touches tokens |
| Contracts.AlteredApprovals | internal/store/store.go:218-224 | every change but enabling makes the application's pending and approved requests revoked and its active grants withdrawn, and touches no other row |
| Protocol.AssignedSorted | internal/store/access.go:68-90 | the configured paths are the listed ones a pattern allows, in order |
| Effects.GateOrFail | internal/store/access.go:22-67 | a request passes the checks exactly when it is authenticated, inside its boundary and every path is there; otherwise it fails and leaves no trace |
| Effects.GrantedIsClosed | internal/store/access.go:142-178 | past the checks a request with a grant is served and logged, one without it joins or opens the pending request, and a poll learns that its approval is gone |
| Answers.MalformedRequest | internal/store/access.go:109-120 | over a hundred paths, a path outside the language or a key over 128 is Invalid, whoever asks |
| Answers.Unauthenticated | internal/store/access.go:22-42 | without the prefix, within 128 characters, of a live token of an enabled application, a request is Unauthorized and changes nothing |
| Answers.AccessAnswer | internal/store/access.go:51-149 | an authenticated access for the paths it names, or for the live ones of its boundary in order, is Forbidden if one lies outside, else NotFound if one is missing or archived or none is left, else delivered under an active grant with each path's newest value and one read event each |
| Answers.OpensRequest | internal/store/access.go:150-178 | without a grant and a pending request it opens one, under the caller's key or a random one, logs it and waits for three seconds |
| Answers.JoinsRequest | internal/store/access.go:150-178 | while one is pending it joins that one: a known key gives its handle for the same paths and a Conflict for others, a new key a new handle |
| Answers.PollAnswer | internal/store/access.go:180-227 | an authenticated poll: NotFound for an unknown or foreign handle, then the checks, then waiting, denied, revoked, or for an approved request the delivery under a grant and revoked without one |
| Answers.DeliveredUnderCurrentGrant | internal/store/access.go:43-50 | over any tables, overdue grants expire first and secrets are delivered only under a grant that is active and not overdue |
| Effects.ResolvingClosed | internal/store/access.go:254-293 | a decision takes effect exactly for a pending request of an enabled application (and, to approve, without an active grant), and writes the request, the grant and the event |
| Effects.ChangingClosed | internal/store/store.go:218-275 | each administrative change writes exactly its rows: the edit or the new token, the withdrawn grants and requests unless it enables, and the event |
| Invariants.AtomicValid | internal/store/access.go:109-293 | every Access, Poll, Resolve and ChangeApplication keeps the approval invariant and the soundness of all rows |
| Invariants.JoinStanding | internal/store/access.go:153-178 | a waiting access leaves its application with one pending request, its own or the earlier one, and changes nothing else of its standing |
| Invariants.ResolveStanding | internal/store/access.go:254-293 | a decision empties the pending set and, when it approves, makes this request and this grant the only approved and active ones |
| Invariants.ChangeStanding | internal/store/store.go:218-275 | every change but enabling leaves no pending request, approved request or active grant; rotation leaves only the new token live; enabling changes only the flag |
| Runs.RunValid | migrations/001_initial.sql:41-55 | every reachable database satisfies the approval invariant |
| Runs.ApprovalInvariant | migrations/001_initial.sql:41-55 | per application at most one pending request and one active grant, never both; as many approved requests as active grants; none at all while disabled |
| Runs.ApprovalNeverClashes | internal/store/access.go:271-288 | a decision is carried out exactly when the request is pending and its application enabled; the one-active-grant index never stops it |
| Sequential.ReplayIsAtomic | internal/store/access.go:109-293 | the statements of one transaction, run over tables nobody else changes, have the answer and the rows of the atomic transaction |
| Locality.LocalStatement | internal/store/access.go:20-42 | a statement of the lock holder gives the same result over any two databases that agree on that application's rows |
| Locality.ReplayConfined | internal/store/access.go:20-42 | from the unlocked lookup on, a transaction writes and refers to its own application's rows only |
| Locality.ReplayLocal | internal/store/access.go:26-40 | commits of other applications between lookup and end do not change what a transaction does |
| Interleaving.EndIsAtomic | internal/store/access.go:109-293 | a finished transaction is its atomic self over the tables it is committed into |
| Interleaving.AlwaysInv | internal/store/access.go:20-42 | after any moves of any transactions, each one in flight is what its statements alone make of the committed tables, and no lock has two holders |
| Serialisability.Serialisable | internal/store/access.go:20-293 | every statement-level interleaving leaves the tables and gives the answers, failures included, of the atomic run of its finished calls in finishing order, and each call is its own statements, run in order on the secret tables of moments between its beginning and its end |
| Serialisability.SinceItBegan | internal/store/access.go:109-293 | a call's beginning is the moment its transaction began: so many calls had finished then |
| Completion.CompletesAlone | internal/store/access.go:20-293 | from every reachable state with the application's lock free, a call run by itself comes to its end, is logged with the answer of the atomic call on the secrets as they stand, and moves nobody else's transaction |
| Completion.AbortLeavesNothing | internal/store/access.go:128 | a transaction given up at any statement leaves no row, no lock and no answer behind |
| Deeds.WhatHappened | internal/store/access.go:109-293 | every call does one of seven deeds, each with the exact rows and answer |
| Deeds.StandingStep | internal/store/store.go:218-275 | all the ways in which one call can move an application's requests and grant |
| Lifecycle.RevocationHolds | internal/store/store.go:218-270 | after a revoke, rotation, disabling or path change, a delivery needs a request opened after it and approved after that; enabling alone never restores access |
| Lifecycle.RevocationUnderLoad | internal/store/store.go:218-270 | the same under every interleaving of statements |
| Lifecycle.StatusForward | internal/store/access.go:271-274 | a request's status moves only from pending to a decision or revocation and from approved to revoked |
| Lifecycle.ResolvedIsFrozen | internal/store/access.go:153-177 | once a request has left pending, its instances and their paths never change |
| Lifecycle.PolledWithinApproval | internal/store/access.go:190-253 | every path a poll delivers lay in the union shown when the request was approved, and the poll delivers its instance's paths |
| Handles.HandlesIdentify | internal/store/access.go:164-178 | over a whole run two waiting answers carry the same handle exactly when they belong to one approval and one key, and then asked for the same set of paths |
| Handles.RepeatedAccess | internal/store/access.go:164-178 | while a request is pending, a repeated key with the same set of paths gets the same answer, with another set a conflict, and nothing changes |
| Handles.PolledAsAsked | internal/store/access.go:180-226 | a poll on a handle delivers exactly the paths of the access that was given the handle |
| Handles.UniqueAt | migrations/001_initial.sql:42-47 | in every reachable database a request and a key name one instance |
| Delivery.DeliversExactly | internal/store/access.go:51-108 | while the secret tables stand still, a request past the checks is served exactly when there is an active grant (for a poll, an approved request), with exactly its paths and their latest plaintexts; it never meets NotFound or a decryption failure |
| Delivery.DeliveredOnlySo | internal/store/access.go:142-149 | while the secret tables stand still, a delivery happens exactly for a request past the checks with an active grant |
| Delivery.DeliversUnderLoad | internal/store/access.go:51-108 | in every interleaving, whatever is archived or written in between, a request past the checks is served with exactly its paths when there is an active grant (for a poll, an approved request), and otherwise waits, conflicts or learns that its approval is gone |
| Delivery.DeliveredOnlySoUnderLoad | internal/store/access.go:142-149 | in every interleaving a delivery happens exactly for a request past the checks with an active grant |
| Delivery.AccessNeverCloses | internal/store/access.go:109-178 | an access is served, waits or fails; it is never answered denied or revoked |
| Delivery.ReadNeverFails | internal/store/access.go:92-107 | in every interleaving a transaction that has found its grant reads each path's latest value and never fails |
| Delivery.DeliveredWhileRunning | internal/store/access.go:92-107 | every value delivered was the latest value of its path at some moment of the call |
| Presence.AnsweredPathsWereLive | internal/store/access.go:57-66 | in every interleaving, whatever an access or poll delivers, waits for or reports on was stored and not archived at some moment of the call |
| Presence.MissingThroughout | internal/store/access.go:57-66 | in every interleaving, an authenticated request inside its boundary with a path missing or archived for the whole call is NotFound |
| Presence.LiveThroughout | internal/store/access.go:57-227 | in every interleaving, one whose paths are all live for the whole call is served with exactly them under an active grant (for a poll, of an approved request); otherwise it waits, conflicts with its key, or learns its fate |
| Presence.ConfiguredComplete | internal/store/access.go:68-90 | in every interleaving, an access that names no paths is answered with every path of its boundary that is live for the whole call |
| Presence.ConfiguredThroughout | internal/store/access.go:68-90 | and, while the set of live paths stays the same, with exactly those inside its boundary, or NotFound if there are none |
| Decisions.DeniedExactly | internal/store/access.go:264-277 | over every run a request is denied exactly if an earlier decision has denied it |
| Decisions.DenialIsFinal | pkg/client/client.go:164-165 | for ever after, a poll on its handles fails or says denied, and then the client stops with a refusal |
| Decisions.DenialUnderLoad | pkg/client/client.go:164-165 | in every interleaving, such a poll whose paths are live says denied, and the client stops with a refusal |
| Boundaries.BoundaryStands | internal/store/store.go:252-258 | from the path change or registration that sets them until the next path change, these are the application's patterns |
| Boundaries.NothingOutside | internal/store/access.go:51-56 | in every interleaving, in between, every path served or waited for is covered by one of them |
| Boundaries.OutsideForbidden | internal/store/access.go:51-56 | and an authenticated access naming a path they do not cover is Forbidden |
| Noninterference.AnswersUnchanged | internal/store/access.go:109-293 | leaving out of a run every protocol call of the other applications changes no remaining answer and no secret it meets |
| Noninterference.NothingElseRemains | internal/store/access.go:109-293 | and every call that is left locks that application or none |
| Noninterference.AtomicTwins | internal/store/access.go:109-293 | over two databases with the same rows of an application, its calls answer the same and write the same rows |
| Noninterference.ForeignHandle | internal/store/access.go:190-196 | a handle of another application and one that does not exist give the same NotFound |
| AuditLog.LogDeterminesState | internal/store/access.go:156-164 | folding the events alone gives back, for every application, whether it is enabled, has a pending request and an active grant, and for every path its latest version and tombstone |
| AuditLog.AppsStep | internal/store/store.go:225-275 | each call's events move the folded views as its rows move the real ones |
| AuditLog.PathsStep | internal/store/secrets.go:91-98 | each secret operation's events move the folded versions and tombstones as its rows do |
| AuditLog.AuditConserves | internal/store/access.go:92-107 | application reads equal delivered paths, requested events equal request rows, approved events equal grants, approved plus denied equal resolved requests |
| Storage.Store.constructor | internal/store/store.go:31-41 | a new store is empty and satisfies the invariants |
| Storage.Store.Authenticate | internal/store/access.go:22-42 | succeeds exactly for a well-formed live token of an enabled application |
| Storage.Store.CheckPaths | internal/store/access.go:51-67 | Forbidden if some path is outside the boundary, else NotFound if one is missing or archived, else nothing |
| Storage.Store.ConfiguredPaths | internal/store/access.go:68-90 | the live paths inside the boundary in order, or NotFound if there are none |
| Storage.Store.HasGrant | internal/store/access.go:43-50 | exactly the application's active grants that are due by now expire, and no other row changes; tells whether a current one is left |
| Storage.Store.Deliver | internal/store/access.go:92-108 | reads and logs every path, or stops with the first error |
| Storage.Store.JoinRequest | internal/store/access.go:150-178 | joins or opens the pending request and its instance, or reports a conflict |
| Storage.Store.Access | internal/store/access.go:109-179 | leaves the tables and gives the answer of the atomic access, rolls back on failure, keeps the invariants; delivers no archived path |
| Storage.Store.Poll | internal/store/access.go:180-227 | the same for a poll |
| Storage.Store.Resolve | internal/store/access.go:254-293 | the same for a decision; it is carried out exactly for a pending request of an enabled application, and then stores approved or denied and who decided |
| Storage.Store.RevokeAll | internal/store/store.go:218-224 | leaves the application without an active grant and without a pending or approved request, and touches no other application's rows, tokens, instances or events |
| Storage.Store.ChangeApplication | internal/store/store.go:225-275 | the same for a change of an application; a path change writes exactly the given patterns |
| Storage.Store.CreateApplication | internal/store/store.go:195-217 | registers the application with its token and event, or refuses bad or taken names |
| Storage.Store.WriteNext | internal/store/secrets.go:78-99 | stores the next version, revives the path and logs created or updated |
| Storage.Store.SaveSecret | internal/store/secrets.go:51-77 | the whole new state and answer of a save |
| Storage.Store.RestoreVersion | internal/store/secrets.go:150-180 | the whole new state and answer of a restore |
| Storage.Store.ArchiveSecret | internal/store/secrets.go:182-199 | the whole new state and answer of an archive; Archived exactly for a live path |
| Storage.Store.ReadSecret | internal/store/secrets.go:119-133 | the newest value and a read event, or the error and no change |
| Storage.Store.ReadVersionOf | internal/store/secrets.go:100-118 | the value of a version, or of the newest for zero |
| MasterKey.KeyTable.InitializeMasterKey | internal/store/store.go:89-145 | a valid stored row stays and is served whatever the file and the data; without a row a file becomes the row file-v1, and without a file the generated bytes become db-v1 unless there is data; every other case is refused and changes nothing; the provider's keys survive the clearing of the buffers |
| Startup.OneKeyForAll | internal/store/store.go:82-145 | through any starts with any files, crashes, restarts and writers, all processes that are up hold the one committed key, every half-written version is sealed under it and is what was meant, and what is stored is untouched legacy data and versions and seeds sealed under that key |
| Startup.OpensWithTheRightKey | internal/store/store.go:104-109 | after any run a stored version reads as written exactly when it was sealed in this run or the committed key is the legacy one; the sealed store stands for the plain one exactly when there is no legacy secret or the key is the legacy one, and the seeds likewise |
| Startup.AnyFileIsImported | internal/store/store.go:104-109 | whatever data there is, some run commits the key of any readable file |
| Startup.NothingIsRewritten | internal/store/secrets.go:78-99 | along every run the committed key stays, versions never change and histories only grow at their end |
| Startup.NeverReplacesTheKey | internal/store/store.go:104-123 | with stored versions or seeds, no key row and no usable file, no process ever comes up and the data stays |
| Startup.CommitStands | internal/store/secrets.go:51-99 | a version allocated under the secret's row lock is the next one when it is committed |
| Startup.CommitIsPlain | internal/store/secrets.go:150-199 | a commit appends the saved values, or the very version a restore names, or sets the tombstone, whatever runs beside it |
| Restarts.StartsAlone | internal/store/store.go:82-145 | a start that meets the advisory lock free and runs undisturbed ends serving, and committing, exactly the key row that initialisation settles on; where it settles on none, the process is gone and nothing has changed |
| Restarts.RestartComesUp | internal/store/store.go:97-103 | so a restart over a stored key comes up with that key, whatever file it is given |
| Restarts.WritesAlone | internal/store/secrets.go:51-99 | a save or restore that meets its row free is committed as the next version and reads back |
| Restarts.ArchivesAlone | internal/store/secrets.go:182-199 | an archive that meets its row free sets the tombstone of a live path and is refused for any other |
| Restarts.MissingIsRefused | internal/store/secrets.go:150-199 | a restore or archive of a path without a committed row waits for nobody and is refused |
| Restarts.SeedStored | internal/store/admin.go:91-115 | a seed stored by a serving process opens to what was stored, and nothing else changes |
| Restarts.SeedDropped | internal/store/admin.go:137-146 | dropping a seed drops that one only |
| Restarts.CrashLeavesNothing | internal/store/store.go:82-145 | a crash takes the process with its locks and uncommitted writes, and nothing that is committed |
| Client.Interval | pkg/client/client.go:60-66 | the interval is the greater of the configured one and three seconds |
| Client.WaitForSecrets | pkg/client/client.go:134-189 | the loop sends the requests, at the times, and ends as the specification says, for any stream of replies and any deadline; without paths it sends nothing |
| Client.RequestFollows | pkg/client/client.go:151-189 | for any replies, each request but the first is a poll on the handle just given, after the interval or the longer advice of up to a minute, or a new request at once after revoked; never past the deadline |
| Client.EndFollows | pkg/client/client.go:151-189 | for any replies, the last reply says how the wait ends: with the secrets only if they hold all paths (and are not empty), with a refusal only on denied, and so for each other end |
| Client.RequestsBounded | pkg/client/client.go:151-189 | with deadline T at most 1 + 2*floor(T/3s) requests, if no POST is answered revoked |
| Client.BoundIsMet | pkg/client/client.go:151-189 | for every deadline some such stream makes the client send exactly that many |
| Client.RevokedPostsUnbounded | pkg/client/client.go:182-183 | without the assumption the client may send any number of requests at once |
| Composition.RequestsAgainstServer | internal/store/access.go:146-226 | against this server the bound holds, because an access never answers revoked |
| Tightness.BoundIsMetByServer | internal/store/access.go:150-226 | for every deadline there is a run of this server whose client sends exactly 1 + 2*floor(T/3s) requests |
| Composition.NeverMissingSecrets | pkg/client/client.go:154-163 | against this server the errors about missing secrets, an empty bundle and an unexpected status are never raised, and what arrives is the delivery the last call was answered, for exactly the wanted paths |
| Composition.WhatFollows | pkg/client/client.go:153-187 | answer by answer of this server, what the client does next |
| Dialects.DialectsAgree | sdk/javascript/index.js:24-52 | on every stream of replies this server can give, the Go, JavaScript and Python clients take the same turns and end alike: with the same bundle, a denial, a failed request or an invalid response |
| Dialects.SameTurn | sdk/python/src/lockgate_client/__init__.py:37-63 | the three clients take the same turn on every reply this server can give |
| Dialects.OneBundleExactly | sdk/javascript/index.js:24-52 | in each client an approved response succeeds exactly with one bundle, and then with its values |
| Dialects.AdviceDiffers | sdk/javascript/index.js:43-45 | the JavaScript and Python clients always wait alike, and the Go client as they do exactly unless the advice is over a minute and over the interval |
| RateLimiter.Limiter.LoginAllowed | internal/server/server.go:325-344 | drops expired windows, opens one of ten minutes for a new address unless 10000 are open, counts the attempt and admits it up to ten |
| RateLimiter.WindowAdmitsTen | internal/server/server.go:325-344 | while a window lasts exactly the address's first ten attempts in it are admitted |
| RateLimiter.NineteenAtMost | internal/server/server.go:325-344 | no closed ten-minute interval admits more than nineteen attempts of one address |
| RateLimiter.TenExactly | internal/server/server.go:325-344 | an interval admits at most ten attempts of an address, whatever comes, exactly when it begins with no open window of that address or with a full one |
| RateLimiter.NineteenReached | internal/server/server.go:325-344 | some run has a closed ten-minute interval with nineteen admitted attempts |
| RateLimiter.MapBounded | internal/server/server.go:335-337 | the map never holds more than 10000 addresses |
| RateLimiter.FullRefuses | internal/server/server.go:335-337 | with 10000 open windows a new address is refused and no window changes |
| Totp.FillCounter | internal/secure/secure.go:70-75 | the byte loop writes the low eight bytes of the counter, most significant first |
| Totp.CounterIsBigEndian | internal/secure/secure.go:70-75 | those bytes are the big-endian form of the counter and of no other |
| Totp.TruncationIsStandard | internal/secure/secure.go:79-80 | the shifted bytes are the low 31 bits of the four bytes at the offset (section 5.3 of RFC 4226), which lie inside the digest |
| Totp.Offset | internal/secure/secure.go:79 | the offset leaves four bytes inside the twenty-byte digest |
| Totp.SixDigitsParse | internal/secure/secure.go:81 | the code has six digits and reads back as the number |
| Totp.TotpCode | internal/secure/secure.go:65-82 | the program's code is the one-time password of the moment's counter, or empty for a malformed seed |
| Totp.VerifyTotp | internal/secure/secure.go:47-63 | true exactly for six digits that equal the code of one of the three offsets |
| Totp.HotpWrittenOut | internal/secure/secure.go:65-82 | a code is six digits for the 31 bits read at the place the digest's last byte names, modulo a million, of the digest of the counter's eight bytes |
| Totp.VerifiesExactly | internal/secure/secure.go:47-82 | a code verifies exactly when the seed is well formed and it is the code of the step before, the step or the step after; the counters of the first thirty seconds are given too |
| Mfa.Admins.BeginMFA | internal/store/admin.go:91-115 | stores a newly sealed seed unless the authenticator is on |
| Mfa.Admins.SetMFA | internal/store/admin.go:116-154 | switches on or off exactly with a code valid for the stored seed, and switching off drops the seed |
| Mfa.Admins.Login | internal/store/admin.go:25-50 | never admits a wrong password or an unknown administrator; admits a right password while the authenticator is off; while it is on, exactly a right password with a code valid for the stored seed |
| Mfa.EnabledSeedIsConfirmed | internal/store/admin.go:91-154 | in every interleaving, while the authenticator is on, the stored seed is the one whose code switched it on, and only sign-ins have happened since |
| Mfa.SeedStaysUntilReleased | internal/store/admin.go:116-154 | once on, the stored seed stays until a code valid for that seed switches it off |
| Mfa.SignInNeedsCode | internal/store/admin.go:41-45 | whoever signs in while it is on gave a code valid for the confirmed seed |
| Mfa.SignedInByPassword | internal/store/admin.go:38-50 | every sign-in comes from an attempt with the right password |
| Mfa.SignInExactly | internal/store/admin.go:38-50 | at any moment an attempt signs in exactly if the administrator exists, the password is right and, while the authenticator is on, the code is valid for the confirmed seed |
| Mfa.SwitchesAlone | internal/store/admin.go:116-154 | a transaction that meets its row free and has a valid code switches the row |
| Mfa.BeginsAlone | internal/store/admin.go:91-115 | and one that begins the setup while the authenticator is off stores a seed that opens |
| Mfa.AlwaysInv | migrations/003_admin_totp.sql:9-13 | after any moves each row is what its history calls for, and its envelope opens to the history's seed |

## Left out

- PostgreSQL beyond row locks, statement snapshots, commit, rollback and the unique indexes: deadlocks and connection errors are not modelled.
- Timestamps of rows, client addresses in events, `last_access`, `last_seen` and the 30-second waiting count: they feed displays only.
- Expiring grants: `Database.ExpireGrants` models the check, but no code creates a grant with an expiry, so runs never hold one.
- Collisions of random identifiers, tokens and keys: calls require fresh ones.
- JSON, UTF-8, base32, base64, HMAC-SHA-1, Argon2id and the regular expression engine: parameters, inverse pairs or denotations.
- The wrapped key's nonce prefix: `Envelopes.Envelope` keeps the nonce and the box as two fields.
- HTTP routing, cookies, CSRF, sessions, templates, the command line, key-file permissions and the admin pages.
- Constant-time comparison, and clearing of buffers except where a key's copy must survive it.
- The file-backed key provider, which the server does not use.
- The login slots, a channel of capacity two.
- Handles as base64url text: `Composition.NeverMissingSecrets` does not exclude the client's error about an unusable handle.
- The statement-level secret writers of `Startup` check the path but not the sizes of the values, which `History` and `Storage` do.
- Dialects.DialectsAgree: covers replies before any deadline and handles with a letter or digit, because the clients treat deadlines differently.
- Dialects.SameTurn: the same; and Go's different error texts for an invalid response count as one kind, as the other clients' one code does.
- Mfa.Admins.Login: the session row and the login events are not modelled, because nothing here depends on them.
- The settings page that shows a seed before it is confirmed (`MFA` in admin.go).
