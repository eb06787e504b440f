# IdpForge: verified models of its stateful core

IdpForge is a self-hosted identity provider. Most of it is HTTP and SQL plumbing around a handful of small stateful
mechanisms that have to be right under concurrency, crashes, caching and time. This project models those mechanisms
in Dafny and proves what they promise, for every input, every run and every interleaving.

Conventions: each SQL statement is atomic; the SQL tables, the cache and the clock are explicit state; time is an
integer that never goes back, and "expired" means strictly after the expiry; UUIDs are arguments or fresh by rule;
hashes are functions, injective where a result says so. Code that updates objects in place is a class whose methods
are tied to functions on the state (`ensures data == Put(old(data), ...)`); the step systems use the same functions,
so what is proved of all runs is proved of those methods.

| file | component |
|---|---|
| `LeaderLease.dfy` | the leader lease of the periodic jobs: three statements, stalls, crashes, lost answers, clock error |
| `Text.dfy`, `Scopes.dfy` | the resource pattern language and its three matchers |
| `Delegation.dfy`, `AnyScope.dfy` | chains of API clients, each issued under the check of the issuer's own scopes |
| `TimedCache.dfy` | the in-memory cache and its reaper |
| `Groups.dfy`, `Directory.dfy`, `TableRows.dfy`, `RbacService.dfy`, `RbacRace.dfy` | permission resolution, its cache, what each write does to rows and grants, and the overlap of both |
| `AuditLog.dfy`, `AuditWriter.dfy` | the batching audit writer, as a step system and as the loop over a reused buffer |
| `Oidc.dfy`, `OidcAnswers.dfy` | the OpenID Connect grants, the lineage of refresh tokens, and who is answered |
| `RateLimit.dfy`; `Lockout.dfy`, `LockoutBound.dfy` | the two windowed counters, and the exactness of the lockout bound |
| `Migrations.dfy` | the migration runner, with failures, crashes and several instances |
| `Fanout.dfy` | the realtime hub across instances |

## Main results

- **Lease** (`MutualExclusion`, `OneLeaderAtATime`, `SomebodyWins`, `DriftBoundIsReached`). With exact clocks at most
  one process is leader at any instant, whatever the interleaving, and when nothing fails somebody is. With clocks off
  by up to e, an earlier grant may overlap by e if no process clock runs backwards, and by 3e if they may (or by e and
  its own length, if that is less); the bound is reached for every e, every lease duration and both kinds of clocks.
- **Delegation** (`DelegationNeverGainsIff`, `AnyScopeNeverGainsIff`). The comment on the issuing check says a token
  can never exceed its creator's access. Issuing needs the permission `api_clients:manage`; beyond that guard, the
  check reads a requested pattern as a plain name. For scopes with one colon, chains of any length never gain power
  exactly when the root user lacks that permission, or each nested wildcard (`*/*`, `x/*/*`) he holds is backed by a
  permission that is no nested wildcard. A root without nested wildcards meets that condition. For arbitrary scope
  strings the issuing check (last colon) and the use (first colon) read a scope differently, and the promise holds
  exactly when the root lacks that permission, or holds no wildcard that can be written in a scope and also holds what
  his permissions are later read as. In both cases longer chains gain nothing that one issuance by the user does not.
  `NestedWildcardHandsOnMore` and `TwoColonsReadApart` are issuances that pass guard and check, and gain.
- **Matchers** (`MatchersAgree`). Server, API client and browser agree on every permission without a colon in its
  resource.
- **Writes** (`LinkGains`, `LinkLoses`, `InsertionAcceptedIff`, and the contract of each `Admin` method). A statement
  adds or removes its row, with its cascade, and no other; after a revocation the grants are the old ones that do not
  rest on the row, after a grant they are the old ones and those through it; and a row is accepted exactly when the
  tables with it satisfy every key.
- **Permission cache** (`CoherentThroughout`, `HasMeansGrantPath`, `BoundedStaleness`, `SeenAtOnceIff`). The three
  `Create` methods invalidate nothing, and need not: no row refers to a new id yet. With writes and resolutions that
  overlap, a write is seen from its invalidation on exactly when no resolution of the user, read and not yet stored at
  the commit, is one that the new tables do not give. Otherwise the old value comes back after the invalidation
  (`RevokedPermissionIsServed`); it then lives for the cache lifetime at most.
- **Ancestor walk** (`ExpansionIsClosure`, `GuardIsExact`, `OrderMattersBeyondGuard`). All ancestors of a group are
  found if and only if its chain settles within 100 groups. Beyond that the result depends on the order of the
  starting groups, for every such group.
- **Cache** (`ReaperIsInvisible`). It refines a map without dead entries.
- **Audit writer** (`NothingLostOrReordered`, `StopFlushesIff`). `Stop` hands over everything accepted before it,
  except what was queued after a cancelled context had already ended the drain; for the writer as such the exception
  is exact and does occur (`LateEntryIsMissed`). The server cancels the context only after `Stop` has returned, and
  then nothing is missed (`StopBeforeCancelFlushesAll`). Without any shutdown, serving the queue and one tick get
  everything out (`EverythingGetsOut`); and every field lands in its own column, so that reading a stored row by
  column names gives the entry back (`BuildInsert`).
- **OpenID Connect** (`LineageIsFaithful`, `OnlyAuthenticatedAreAnswered`, `HonestExchangeIsAnswered`). Codes and
  refresh tokens are single use and keep what they were bound to. Over every run, client credentials included, only
  clients that are public or present a secret with the registered hash are answered, codes only for redirect URIs
  registered when they were issued; and whoever presents in time what he was given is answered.
- **Rate limit** (`DecisionsAreExact`, `RateIsBounded`, `RateBoundIsReached`). Every decision is the exact one for its
  bucket; twice the limit fits into one window, and even into two ticks.
- **Lockout** (`FailuresAreBounded`, `BoundIsReached`, `AtMostMIff`, `LockedThroughout`, `WrongNeverLogsIn`). A window
  holds up to max(M, 2M - 2) counted failures, plus one for every time a lock can run out within it, and for every
  configuration some run reaches that. So M is a bound exactly when M is 1 or 2 and the lock lasts at least as long as
  the window, or for good.
- **Migrations** (`RecordIsPrefix`, `UndisturbedCallCompletes`) and **fan-out** (`ExactlyOnce`,
  `PublicationOrderIsKept`, `SilentAfterRemove`) hold in every interleaving of instances.

The rows below whose member is a method say what one operation does to the state: as the function the results are
about, and, for the cache, the tables and the tokens, also over the old and the new state themselves, key by key and
row by row, without that function.

## Model

| member | source | states |
|---|---|---|
| LeaderLease.Lease.TryAcquire | internal/leaderlease/leaderlease.go:39-64 | An undisturbed call answers true exactly when the job has no row, an own row or an expired one; then the row is the caller's and runs from the clock reading, and otherwise nothing changed. |
| LeaderLease.UndisturbedAttempt | internal/leaderlease/leaderlease.go:39-64 | The stepped call, with any time passing between its statements, has the effect and the answer of the undisturbed call at its clock reading. |
| LeaderLease.ReportsOnlyShow | internal/leaderlease/leaderlease.go:43-63 | A statement whose answer is lost changes the table as one that is reported, one that is not executed changes nothing, and the INSERT goes on all the same. |
| LeaderLease.StepKeepsToItself | internal/leaderlease/leaderlease.go:43-63 | A step touches the row of its own job only, and answers true exactly when its UPDATE is reported and finds the row in the name of its process; a failed DELETE or UPDATE ends the call with an error. |
| LeaderLease.StepKeepsInv | internal/leaderlease/leaderlease.go:39-64 | Every step of every process, stalled, crashed or with its answer lost, keeps each grant backed by the row or past its expiry, and earlier grants to other processes out of date. |
| LeaderLease.MutualExclusion | internal/leaderlease/leaderlease.go:31-64 | In every run, when a process becomes leader at time T, every earlier grant of the job to another process had expires_at < T, plus the clock error e; if process clocks may run backwards, plus another 2e, or plus the grant's own length if that is less. |
| LeaderLease.OneLeaderAtATime | internal/leaderlease/leaderlease.go:31-38 | With exact clocks no instant lies inside two grants of one job to different processes. |
| LeaderLease.DriftBoundIsReached | internal/leaderlease/leaderlease.go:40-41 | For every clock error, every lease duration, and clocks that may run backwards or not, a run comes within one tick of the bound of `MutualExclusion`. |
| LeaderLease.SomebodyWins | internal/leaderlease/leaderlease.go:31-38 | When all calls of a run are over and none failed, the job has a row, and its holder was answered true or held it from the start. |
| LeaderLease.PunctualLeaderStays | internal/leaderlease/leaderlease.go:53-63 | If every renewing UPDATE of the leader lands before the expiry its previous one set (previous reading + 2 x interval for the job loops), it stays leader for the whole run, and every other process's call answers false. |
| LeaderLease.DeadHolderIsRemoved | internal/leaderlease/leaderlease.go:43-47 | Once a dead holder's expiry has passed, the first later DELETE of another process removes its row for good; before that it changes nothing. |
| Scopes.SplitScopeLoop | internal/httpserver/actor.go:86-93 | The loop splits at the last colon: the parts join to the scope, the action has no colon, and it fails only without a colon. |
| Scopes.SplitsAgree | internal/httpserver/actor.go:86-93 | Splitting at the last colon and cutting at the first agree exactly on scopes with at most one colon. |
| Scopes.RenderingFaithful | internal/rbac/models.go:14-26 | Cutting undoes the rendering, and the rendered string grants what the permission grants, exactly when the resource has no colon. |
| Scopes.MatchersAgree | internal/rbac/models.go:14-46 | On permissions without a colon in the resource, Resolved.Has, Client.HasScope and the browser's hasPermission give the same answer to every question. |
| Scopes.BrowserAgreesWithScope | web/lib/permissions.ts:5-19 | On any list of strings the browser's test and the API client's test agree. |
| Scopes.CoversExactly | internal/rbac/models.go:14-22 | A pattern covers its own name, `*` everything, `x/*` the folder x and all below it, and nothing else. |
| Scopes.LiteralCheckContains | internal/rbac/models.go:14-22 | If a pattern that is no nested wildcard matches the text of another pattern, it covers everything that pattern covers. |
| Scopes.LiteralCheckSoundIff | internal/rbac/models.go:14-22 | Matching a pattern's text implies containment for every pattern and target exactly when the held pattern is no nested wildcard. |
| Delegation.RequireOwnScopes | internal/httpserver/actor.go:56-84 | Issuance passes exactly when every scope is well formed and held by the actor; otherwise the error is that of the first scope that is not. |
| Delegation.JudgeExactly | internal/httpserver/actor.go:56-93 | A scope is malformed exactly without a colon, granted exactly when the actor holds the parts before and after its last colon, and refused as unauthenticated exactly to nobody at all. |
| Delegation.RequirePermission | internal/httpserver/permission.go:13-35 | The guard of a route lets exactly the actors through that hold its permission, as user or as API client, and answers 401 exactly to those who are neither. |
| Delegation.CreateAPIClient | internal/httpserver/api_client_handlers.go:30-47 | A client is created exactly when its issuer passes the guard of the route (api_clients:manage) and holds every requested scope; without the guard's permission the scopes are not looked at. |
| Delegation.ChainAnchored | internal/httpserver/actor.go:56-84 | If the root's nested wildcards are backed, whatever the client at any depth of a chain of one-colon scopes can do is covered by a permission of the root user that is no nested wildcard. |
| Delegation.DelegationNeverGainsIff | internal/httpserver/actor.go:53-93 | Chains of clients with one-colon scopes, every issuer passing the guard and the check, never gain power over the root user, whatever their length, exactly when the root lacks api_clients:manage or each nested wildcard he can hand on is backed by a plain permission; and exactly when no single issuance by him gains. |
| Delegation.NestedWildcardHandsOnMore | internal/httpserver/actor.go:56-84 | The root user of `*/*:read` and `api_clients:manage` can issue `*:read`, which grants what he does not hold. |
| AnyScope.CoveredIsIncludable | internal/rbac/models.go:14-46 | A list of permissions covers all that a pattern covers only if a single one of them includes the pattern. |
| AnyScope.OnlyRootPermissions | internal/httpserver/actor.go:56-93 | Under the closed-root condition every scope anywhere in a chain is one of the root's own permissions, rendered. |
| AnyScope.AnyScopeNeverGainsIff | internal/httpserver/actor.go:53-93 | With no condition on the scope strings, chains never gain power exactly when the root lacks api_clients:manage, or no permission of his that can be written as a scope is a wildcard and each is held also in the way it is later read; and exactly when no single issuance by him gains. |
| AnyScope.TwoColonsReadApart | internal/httpserver/actor.go:86-93 | A root user of `a:b:c` and `api_clients:manage`, without any wildcard, can issue `a:b:c`: it passes the check as action c on a:b, and is used as action b:c on a, which he does not hold. |
| TimedCache.MemoryCache.Get | internal/cache/memory.go:45-56 | A value is found exactly when its entry exists and has no expiry or one that is not before now; then it is the stored one. |
| TimedCache.MemoryCache.Set | internal/cache/memory.go:58-67 | The key gets the value with a new expiry, none if the lifetime is not positive; no other key changes. |
| TimedCache.MemoryCache.Delete | internal/cache/memory.go:69-76 | Exactly the named keys are gone. |
| TimedCache.MemoryCache.DeletePrefix | internal/cache/memory.go:78-87 | Exactly the keys with the prefix are gone. |
| TimedCache.MemoryCache.Increment | internal/cache/memory.go:89-104 | A live counter goes up by one and keeps its value and expiry; a dead or missing one starts again at one, for the lifetime; no other key changes. |
| TimedCache.MemoryCache.Reap | internal/cache/memory.go:30-43 | One pass leaves exactly the entries that are live, as they were. |
| TimedCache.FoundWhileItLasts | internal/cache/memory.go:45-67 | A stored value is found up to and including now plus its lifetime, for good without one, and not afterwards. |
| TimedCache.ReaperIsInvisible | internal/cache/memory.go:30-104 | Over any sequence of operations under a monotone clock, reaper passes inserted anywhere change no reply, and the replies are those of a map without dead entries. |
| TimedCache.InvalidationIsPrecise | internal/rbac/resolve.go:75-78 | Dropping the RBAC prefix removes every resolution and no session, ceremony, code, refresh token, login counter, lock or rate entry. |
| Groups.ExpandAncestorGroups | internal/rbac/resolve.go:137-150 | The loop with its shared visited set and its guard computes the walk function the results below are about. |
| Groups.ExpansionIsSound | internal/rbac/resolve.go:137-150 | On any data, cyclic or deep: no duplicates, every starting group, and only true ancestors. |
| Groups.ExpansionIsClosure | internal/rbac/resolve.go:137-150 | When each starting chain settles within 100 groups, cycles included, exactly the groups reachable by parent links are collected. |
| Groups.OrderDoesNotMatter | internal/rbac/resolve.go:137-150 | Under the same condition the result as a set does not depend on the order or repetition of the starting groups. |
| Groups.GuardIsExact | internal/rbac/resolve.go:141 | For one starting group, all ancestors are found if and only if its chain settles within the guard. |
| Groups.OrderMattersBeyondGuard | internal/rbac/resolve.go:137-149 | For every group whose chain is longer than the guard, starting from it and its parent finds the ancestor at the guard if the parent is listed first, and misses it if the parent is listed second: the shared visited set stops the second walk. |
| Groups.ReachesIsPath | internal/rbac/resolve.go:137-150 | The ancestors the walk is measured against are those a list of parent links leads to. |
| Directory.ExecuteKeepsForeignKeys | internal/db/migrations/postgres/0001_init.sql:19-63 | Every statement, with its cascades, keeps referential integrity. |
| Directory.HasMeansGrantPath | internal/rbac/resolve.go:59-65 | Within the depth guard, on a reading of the tables, a permission is held exactly when a role assigned to the user, to a group of the user or to an ancestor of one carries a permission with that action whose pattern covers the resource. |
| Directory.RoleNamesAreReached | internal/rbac/resolve.go:153-200 | Within the depth guard the role names of a resolution are exactly the names of the roles the user is granted. |
| Directory.ResolutionIsUnique | internal/rbac/resolve.go:80-102 | Within the depth guard any two readings of the same tables agree as sets, however the database orders its rows. |
| Directory.OthersUnaffected | internal/rbac/admin.go:179-288 | A write leaves the possible resolutions of every user it does not invalidate exactly as they were, new groups, roles and permissions included. |
| Directory.WriteKeepsCoherence | internal/rbac/admin.go:34-83 | If every live cached resolution is true of the tables before a write and its invalidation, it is afterwards. |
| Directory.CoherentThroughout | internal/rbac/resolve.go:37-102 | Over any run of writes, resolutions, time and reaper passes, every live cached resolution is what the tables give now. |
| TableRows.InsertionAddsRow | internal/rbac/admin.go:47-288 | An accepted insertion adds exactly its row. |
| TableRows.DeletionRemovesRow | internal/rbac/admin.go:192-288 | Removing a permission, a role or a membership is accepted in any case and removes exactly its row. |
| TableRows.DeletionCascades | internal/db/migrations/postgres/0001_init.sql:26-63 | Deleting a user removes him, his memberships and his roles; deleting a role removes it, its permissions and its assignments; every other row stays. |
| TableRows.InsertionAcceptedIff | internal/db/migrations/postgres/0001_init.sql:19-63 | A row is accepted exactly when its primary key is free and the tables with it satisfy every unique and foreign key; a new group may be its own parent. |
| TableRows.StatementsKeepKeys | internal/db/migrations/postgres/0001_init.sql:19-63 | Every statement keeps the unique names of roles and groups, the unique permissions and the foreign keys. |
| TableRows.GrantPathIsGrant | internal/rbac/resolve.go:59-102 | A grant path is a chain of rows that are there: the role of a user, or his membership, parent links and the role of a group, and then the permission of the role. |
| TableRows.LinkGains | internal/rbac/admin.go:183-279 | After a permission, a role or a member is added, the grants of every user are the old ones and those that become complete with the row. |
| TableRows.LinkLoses | internal/rbac/admin.go:192-288 | After one is removed, the grants of every user are the old ones that do not rest on the row. |
| TableRows.NewEntityGrantsNothing | internal/rbac/admin.go:47-248 | A new user, group, role or permission leaves the grants of every user as they are. |
| RbacService.Resolver.Resolve | internal/rbac/resolve.go:37-55 | A live entry is served as it is and nothing changes; otherwise the answer is a reading of the tables, cached for the lifetime. |
| RbacService.Resolver.HasPermission | internal/rbac/resolve.go:59-65 | With a coherent cache, and chains within the depth guard, the answer is the grant path in the tables as they are now, cached or not; the cache stays coherent in any case. |
| RbacService.Resolver.Invalidate | internal/rbac/resolve.go:69-71 | The entry under `rbac:user:` and the user's id is gone; every other entry of the cache stays as it is, other users' resolutions included. |
| RbacService.Resolver.InvalidateAll | internal/rbac/resolve.go:76-78 | No entry under `rbac:user:` is left, and every other entry of the shared cache stays as it is. |
| RbacService.Resolver.ResolveFromDB | internal/rbac/resolve.go:80-102 | The four queries and the loops between them give a resolution that lists the effective roles' names and permissions. |
| RbacService.Resolver.RoleIDsFor | internal/rbac/resolve.go:153-200 | The ids are those of the roles assigned to the user or to one of the groups, the names are theirs. |
| RbacService.Resolver.PermissionsFor | internal/rbac/resolve.go:202-227 | The rows are the permissions of the given roles. |
| RbacService.Admin.DidKeepsCoherence | internal/rbac/admin.go:34-37 | What each of the write methods below does keeps every live cached resolution true and the foreign keys satisfied. |
| RbacService.Admin.CreateRole | internal/rbac/admin.go:47-55 | Accepted, the role row is added and no other; refused, nothing changes; no grant and no cache entry changes. |
| RbacService.Admin.DeleteRole | internal/rbac/admin.go:77-83 | The role, its permissions and its assignments are gone and no other row; the grants are the old ones through other roles; no cached resolution is left and nothing else leaves the cache. |
| RbacService.Admin.CreatePermission | internal/rbac/admin.go:85-93 | Accepted, the permission row is added and no other; refused, nothing changes; no grant and no cache entry changes. |
| RbacService.Admin.GrantPermissionToRole | internal/rbac/admin.go:183-190 | The row is added and no other; the grants are the old ones and those through it; no cached resolution is left and nothing else leaves the cache; refused, tables and cache stay as they are. |
| RbacService.Admin.RevokePermissionFromRole | internal/rbac/admin.go:192-199 | The row is gone and no other; the grants are the old ones that do not rest on it; no cached resolution is left and nothing else leaves the cache. |
| RbacService.Admin.AssignRoleToUser | internal/rbac/admin.go:201-208 | The row is added and no other; the grants are the old ones and those through it; the user's cached resolution is gone and nothing else leaves the cache; refused, tables and cache stay as they are. |
| RbacService.Admin.RemoveRoleFromUser | internal/rbac/admin.go:210-217 | The row is gone and no other; the grants are the old ones that do not rest on it; the user's cached resolution is gone and nothing else leaves the cache. |
| RbacService.Admin.AssignRoleToGroup | internal/rbac/admin.go:219-226 | The row is added and no other; the grants are the old ones and those through it; no cached resolution is left and nothing else leaves the cache; refused, tables and cache stay as they are. |
| RbacService.Admin.RemoveRoleFromGroup | internal/rbac/admin.go:228-235 | The row is gone and no other; the grants are the old ones that do not rest on it; no cached resolution is left and nothing else leaves the cache. |
| RbacService.Admin.CreateGroup | internal/rbac/admin.go:240-248 | Accepted, the group row is added and no other; refused, nothing changes; no grant and no cache entry changes. |
| RbacService.Admin.AddUserToGroup | internal/rbac/admin.go:272-279 | The row is added and no other; the grants are the old ones and those through it; the user's cached resolution is gone and nothing else leaves the cache; refused, tables and cache stay as they are. |
| RbacService.Admin.RemoveUserFromGroup | internal/rbac/admin.go:281-288 | The row is gone and no other; the grants are the old ones that do not rest on it; the user's cached resolution is gone and nothing else leaves the cache. |
| RbacService.Admin.HandleCreateUser | internal/httpserver/users_handlers.go:35-58 | The user row is added and no other; no grant changes; the cached resolution under the id is gone and nothing else leaves the cache; refused, tables and cache stay as they are. |
| RbacService.Admin.HandleDeleteUser | internal/httpserver/users_handlers.go:162-186 | Refused exactly for a missing user; otherwise the user, his memberships and his roles are gone and no other row, the grants are the other users' old ones, and his cached resolution is gone and nothing else leaves the cache. |
| RbacRace.StepKeepsInv | internal/rbac/resolve.go:37-55 | Every step of overlapping resolutions and writes keeps each stored, loaded and answered resolution true at a recorded instant that lies between the beginning and the storing of its call. |
| RbacRace.UndisturbedResolve | internal/rbac/resolve.go:37-55 | A stepped call that misses and is not disturbed caches the value for the lifetime and answers it, and every other entry stays, as the resolver does in one piece. |
| RbacRace.UndisturbedWrite | internal/rbac/admin.go:34-37 | A stepped write that is not disturbed has the effect of the write in one piece, and a refused one has none. |
| RbacRace.BoundedStaleness | internal/rbac/resolve.go:37-55 | In every interleaving each answer was the true resolution at one instant no earlier than now minus the cache lifetime minus the running time of the call that cached it. |
| RbacRace.SeenAtOnceIff | internal/rbac/resolve.go:67-78 | Whatever overlaps the write and whatever follows, short of another write for the user, every answer after the invalidation shows the write, exactly when at its commit no resolution of the user, read and not yet stored, was one the new tables do not give. |
| RbacRace.LateStoreServesOldValue | internal/rbac/resolve.go:46-53 | From a start with nothing under way, every write that makes a resolution untrue has a run in which the old value comes back after the invalidation and is served although the tables no longer give it. |
| RbacRace.RevokedPermissionIsServed | internal/rbac/resolve.go:46-53 | A complete run from a start: a user loses his only role, the invalidation is done, and the last answer still grants what no grant path in the tables gives. |
| AuditLog.BuildInsert | internal/audit/writer.go:136-169 | Placeholder j of entry i has number 11i + j + 1; the arguments 11i to 11i + 10 are the fields that the names in the column list ask for, NULL exactly for an empty nullable field; and reading them back gives the entry. |
| AuditLog.StepKeepsInv | internal/audit/writer.go:55-128 | Every step of the producers and the consumer keeps conservation, order, the queue bound and the batch sizes. |
| AuditLog.NothingLostOrReordered | internal/audit/writer.go:77-128 | In every interleaving the accepted entries, in order, are the batches handed over, then the current batch, then the queue; size-triggered batches are exactly full and tick-triggered ones are not. |
| AuditLog.DroppedOnlyWhenFull | internal/audit/writer.go:55-67 | In every run each call of Log leaves one record, in order, and its entry was dropped exactly when the queue was full at that call. |
| AuditLog.SelectingMakesProgress | internal/audit/writer.go:109-127 | Receiving takes the oldest entry, and hands the batch over exactly when that fills it; a tick hands over whatever there is. |
| AuditLog.EverythingGetsOut | internal/audit/writer.go:109-127 | From any point of any run with the loop selecting, as many receipts as the queue is long and one tick hand over everything accepted, in order. |
| AuditLog.StopFlushesIff | internal/audit/writer.go:130-134 | When Stop returns, all entries accepted before it have been handed over exactly when the consumer had not finished its drain at the call, or nothing was queued. |
| AuditLog.LateEntryIsMissed | internal/audit/writer.go:109-134 | After a cancelled context has ended the drain, an entry is accepted, Stop returns, and the entry is never handed over. |
| AuditLog.NoStopNoCancelNoDrain | internal/audit/writer.go:109-127 | Only Stop or a cancelled context ends the selecting phase. |
| AuditLog.StopBeforeCancelFlushesAll | cmd/server/main.go:183-188 | When Stop is called before the context is cancelled, as the server does, everything accepted before the call has been handed over when it returns. |
| AuditWriter.Writer.Append | internal/audit/writer.go:83-128 | The reused buffer gets the entry at its end, in place or in a larger copy. |
| AuditWriter.Writer.FlushBatch | internal/audit/writer.go:84-92 | A batch that is not empty is handed over whole and the buffer is empty again. |
| AuditWriter.Writer.OnExit | internal/audit/writer.go:98-118 | The exit hands over the current batch and the whole queue, in order, as one batch. |
| AuditWriter.Writer.Consume | internal/audit/writer.go:77-128 | The select loop over the buffer ends in the state the step system gives for the cases it picked. |
| AuditWriter.ServedIsRun | internal/audit/writer.go:77-128 | Every course of the loop is one of the interleavings of the step system. |
| AuditWriter.LoopHandsOverEverything | internal/audit/writer.go:98-118 | When the loop returns through an exit case, every accepted entry has been handed over, in order and once. |
| AuditWriter.AskedToStopItStops | internal/audit/writer.go:98-118 | Stop and a cancelled context each bring the loop to its end, from any point of any run, with everything accepted handed over. |
| Oidc.Provider.Authorize | internal/auth/oidc/provider.go:49-78 | A code is stored for 120 seconds, bound to the whole request, exactly for a registered client, one of its redirect URIs and an S256 challenge; nothing else changes. |
| Oidc.Provider.AuthenticateClient | internal/auth/oidc/provider.go:164-176 | Passes exactly for a registered client that has no secret hash, or whose stored hash is that of the presented secret. |
| Oidc.Provider.ExchangeCode | internal/auth/oidc/provider.go:100-126 | For a client that fails to authenticate or a code that is not live, nothing changes. Otherwise the code is gone; the answer is for its user and scope, with a refresh token in the cache, exactly when client, redirect URI and verifier match, and nothing else changes. |
| Oidc.Provider.RefreshTokens | internal/auth/oidc/provider.go:129-156 | A live token presented by its own authenticated client is replaced by a new one with the same user and scope, and nothing else changes; otherwise nothing changes at all. |
| Oidc.Provider.ClientCredentials | internal/auth/oidc/provider.go:193-202 | A grant is given exactly when the client is registered and public or presents its secret, to the client as its own user, without a refresh token; its scope joins the registered ones, and read as a list is exactly these if and only if each of them is a token. |
| Oidc.ScopeSaysRegisteredIff | internal/auth/oidc/provider.go:185-201 | Joining registered scopes with spaces and reading the string as a space-delimited list (section 3.3 of RFC 6749) gives the list back exactly when every scope is nonempty and has no space. |
| Oidc.Provider.IssueTokens | internal/auth/oidc/provider.go:248-260 | The new refresh token's record, under the token's hash and for the configured lifetime, carries client, user and scope; nothing else changes. |
| OidcLineage.StepKeepsInv | internal/auth/oidc/provider.go:49-263 | Every request keeps stored codes unused, stored tokens faithful to their code and unused, and one token per code. |
| OidcLineage.LineageIsFaithful | internal/auth/oidc/provider.go:100-156 | With an injective token hash, over any run a code is answered at most once, in time, to its client, for its redirect URI and verifier (sections 4.1.3 of RFC 6749 and 4.6 of RFC 7636); a refresh token at most once; at most one is left per code; user, client and scope never change (section 6 of RFC 6749). |
| OidcLineage.PresentedCodeIsGone | internal/auth/oidc/provider.go:105-112 | A request of a registered client that is public or presents its secret uses up the code it presents even when it fails. |
| OidcLineage.ForeignRefreshChangesNothing | internal/auth/oidc/provider.go:150-153 | A refresh token presented by another client stays as it was. |
| OidcAnswers.StepAnswers | internal/auth/oidc/provider.go:100-202 | A request is answered only if its client is registered at that moment and is public or presents a secret with the registered hash; the answer is to this client, and there is one at most. |
| OidcAnswers.OnlyAuthenticatedAreAnswered | internal/auth/oidc/provider.go:158-176 | Over every run every answer, of whatever grant, went to a client that was registered then and was public or had presented a secret with the registered hash. |
| OidcAnswers.OnlyTheSecretPasses | internal/auth/oidc/provider.go:164-176 | Where every hash belongs to one secret, a confidential client is answered with the registered secret only. |
| OidcAnswers.StepIssuesCodes | internal/auth/oidc/provider.go:49-78 | A code comes into being only by an authorization request of a registered client with a registered redirect URI and an S256 challenge, and is bound to all of it. |
| OidcAnswers.OnlyRegisteredRedirects | internal/auth/oidc/provider.go:49-126 | Over every run every code that was answered had been issued for a redirect URI registered then, which is also the one it was redeemed with. |
| OidcAnswers.HonestExchangeIsAnswered | internal/auth/oidc/provider.go:49-126 | A client that presents its code for the first time within two minutes, with redirect URI, verifier and secret, is answered for the user and scope of the authorization, whatever happened in between. |
| OidcAnswers.HonestRefreshIsAnswered | internal/auth/oidc/provider.go:129-156 | A client that presents its live refresh token for the first time is answered for the same user and scope, whatever happened in between, and holds a new one for the configured lifetime. |
| OidcAnswers.LateRefreshIsRefused | internal/auth/oidc/provider.go:129-156 | After its lifetime a refresh token is answered no more, whatever happened in between. |
| RateLimit.Server.AuthenticateAny | internal/httpserver/actor.go:35-38 | The request is counted under `apiclient_rl:`, the client and the number of the window, in an entry that lasts as long as the window; it passes exactly while the count is within the limit, and nothing else changes. |
| RateLimit.Server.RequireAPIClient | internal/httpserver/api_client_auth.go:28-32 | The same decision on the same counter. |
| RateLimit.DecisionsAreExact | internal/cache/memory.go:89-104 | In every run a request is allowed exactly when fewer than the limit came before it in its bucket, over both paths: the counter never expires inside its bucket. |
| RateLimit.RateIsBounded | internal/httpserver/actor.go:35-38 | At most the limit is allowed per bucket and at most twice that in any closed span of W seconds, over both paths. |
| RateLimit.RateBoundIsReached | internal/httpserver/actor.go:35-38 | For every client some run reaches twice the limit within two ticks around a bucket boundary, once the limit on each path. |
| Lockout.Server.RecordLoginFailure | internal/httpserver/auth_handlers.go:31-41 | The live counter of the name goes up, or a new one starts at one for the window; from the limit on the name is locked for the duration, below it the lock stays as it is; nothing else changes. With a limit that is not positive nothing changes at all. |
| Lockout.Server.ClearLoginFailures | internal/httpserver/auth_handlers.go:43-45 | Counter and lock of the name are gone, and every other entry stays. |
| Lockout.Server.HandleLogin | internal/httpserver/auth_handlers.go:74-116 | Locked exactly for a live lock, and refused by the captcha exactly without one; both count nothing. Logged in exactly when name, password, loaded user and, if enabled, second factor are right too; counter and lock of the name are then gone. Otherwise 401, and counted, unless the user could not be loaded. |
| Lockout.LockedThroughout | internal/httpserver/auth_handlers.go:80-83 | From a lock to its expiry, over any run of attempts on any names with right or wrong credentials, every attempt on the name is turned away, nothing is counted for it, and the lock stays as it was set. |
| Lockout.WrongNeverLogsIn | internal/httpserver/auth_handlers.go:74-116 | In every run a name without a fully correct attempt is never told that it is logged in. |
| Lockout.StepRecordsFailures | internal/httpserver/auth_handlers.go:31-113 | The failures the bounds are about are exactly the attempts that get past lock and captcha with a wrong name, password or second factor, each recorded at its time and counted. |
| Lockout.FailuresAreBounded | internal/httpserver/auth_handlers.go:80-116 | For every limit M >= 1, every window and every lock length, shorter than the window or for good: without a successful login for the name, no closed interval of the window's length holds more counted failures than max(M, 2M - 2) plus the number of times a lock can run out in a window. |
| LockoutBound.BoundIsReached | internal/httpserver/auth_handlers.go:31-41 | For every configuration some run without a success fills some window exactly to that bound. |
| LockoutBound.AtMostMIff | internal/httpserver/auth_handlers.go:31-41 | No window of any run holds more than M counted failures exactly when M is 1 or 2 and the lock lasts at least as long as the window, or for good. |
| Migrations.MissingIsRest | internal/db/migrate.go:39-47 | When the record is a prefix of the sorted names, the missing names are the rest in order. |
| Migrations.Schema.ApplyMigration | internal/db/migrate.go:96-117 | Statements and record commit together or not at all, and a recorded name is refused. |
| Migrations.Schema.Migrate | internal/db/migrate.go:39-57 | The missing migrations are recorded in order, all of them exactly when the call succeeds, and those before the first failure otherwise. |
| Migrations.RecordIsPrefix | internal/db/migrate.go:15-57 | In every interleaving of calls of any releases, with failures, lost answers and crashes, the record is a prefix of the sorted names, and a call that succeeded leaves all of its release recorded. |
| Migrations.SecondCallChangesNothing | internal/db/migrate.go:44-57 | A call that starts when its release is recorded succeeds and changes nothing. |
| Migrations.UndisturbedCallCompletes | internal/db/migrate.go:39-57 | From any point of any run, a call that nobody disturbs and whose transactions work records exactly what is missing of its release, in order, and succeeds. |
| Migrations.StepRecordsAtMostItsName | internal/db/migrate.go:96-117 | A failed transaction and a crash leave no trace in the record; a step records the next missing name of its call at most. |
| Migrations.UnseenCommitCounts | internal/db/migrate.go:96-117 | A commit whose answer is lost is recorded like any other, and its call fails. |
| Fanout.Hub.DeliverLocal | internal/httpserver/ws.go:114-123 | The message goes once to every local connection that may see it and to no other. |
| Fanout.Hub.Broadcast | internal/httpserver/ws.go:102-112 | The local connections get the message, and the envelope is published exactly when the hub is clustered. |
| Fanout.Hub.OnEnvelope | internal/httpserver/ws.go:73-82 | An own envelope is ignored; another instance's goes to the local connections. |
| Fanout.StepKeepsInv | internal/httpserver/ws.go:70-123 | Every step keeps each broadcast in exactly one place per instance and each connection's feed free of repetitions and of messages it may not see. |
| Fanout.AtMostOnceAndOnlyToTheEntitled | internal/httpserver/ws.go:70-123 | In every interleaving of instances nothing is written to a connection twice, and audit-only payloads never reach one without audit rights. |
| Fanout.ExactlyOnce | internal/httpserver/ws.go:99-123 | A connection that stays registered gets every later broadcast it may see exactly once, as soon as what was published has been read, unless publishing failed; on the origin instance in any case. |
| Fanout.BroadcastArrives | internal/httpserver/ws.go:70-123 | A message sent on one instance and published is with every connection of another that may see it, once that has read its envelopes. |
| Fanout.PublicationOrderIsKept | internal/httpserver/ws.go:70-112 | Of two messages from other instances, every connection that gets both gets the one published first ahead of the other. |
| Fanout.SilentAfterRemove | internal/httpserver/ws.go:92-97 | Nothing is written to a connection after it is removed. |
| Fanout.RecordsStay | internal/httpserver/ws.go:85-112 | The rights of a connection and the audience of a broadcast are those given when it was added or sent, and never change. |

## Left out

- HTTP routing, cookies, JSON, headers, the user interface, configuration and the remaining CRUD handlers: plumbing.
- Hashing, signing, password checks, MFA and captcha: their answers are arguments or functions.
- Redis and other shared caches: the cache is the in-memory one, and its operations do not fail.
- Database errors on reads: the model's queries answer. Errors on writes are refusals by a key, and for the lease and
  the migrations any failure, including an executed statement whose answer is lost. A lease statement reported as
  failed is not executed later.
- A database driver that counts changed rows instead of matched rows in the lease's UPDATE.
- The work the job loops do once they are leader, such as the alert poller's memory of earlier results.
- RbacRace.BoundedStaleness: the four queries of one resolution are one read of the tables; in the code, a write
  between two of them can yield a mixture of both states.
- Directory.CoherentThroughout: for chains deeper than the guard a reading depends on the order in which the database
  lists groups (`OrderMattersBeyondGuard`), so a cached resolution is one of the possible readings; within the guard
  `ResolutionIsUnique` removes the choice.
- Groups that are deleted or moved: the service has no operation for it.
- TableRows.InsertionAcceptedIff: a user row is its id; the unique username and e-mail of a user, and the lengths of
  names, are left out.
- Delegation.RequireOwnScopes: the internal error of a failing permission lookup is not modelled, and a user's
  permissions are taken as resolved once per request.
- OidcLineage.LineageIsFaithful: for requests served one at a time; reading a code and deleting it are two cache calls
  in the code. Tokens themselves (claims, roles, signatures) are not part of this model.
- RateLimit.DecisionsAreExact: a request reads the clock once; the code reads it for the bucket and again in the cache.
- Lockout.FailuresAreBounded: for logins served one at a time, and for a window of positive length. The login check
  for API clients, POST /external/v1/login (internal/httpserver/api_client_handlers.go:89-108), tests local passwords
  too, but looks at no lock and counts no failure; it is not part of this model.
- AuditLog.StopFlushesIff: hand-over to the insert, not its success, which the code only logs. A queue of capacity
  zero, the callback of the live feed, and the defaulting of the timestamp are left out.
- AuditWriter.Writer.OnExit: no producer runs during its drain; `AuditLog` has the interleavings in which one does.
- Migrations.RecordIsPrefix: migration statements are taken as transactional, and later releases only add names that
  sort last. Listing, filtering and sorting the files, and splitting them into statements, are left out.
- Delegation.CreateAPIClient: naming, uniqueness and the stored record of a client are left out. Whether the group of
  self-service routes (internal/httpserver/router.go:41) also keeps API clients off this route is up to the web
  framework; the conditions are the same either way, since one issuance by the user decides them.
- Fanout.ExactlyOnce: the channel hands each published envelope once to each instance, the set of instances is fixed,
  and a failed write to a connection counts as written; the code ignores that error. A payload stands for one
  broadcast: two broadcasts with equal bytes are two payloads here.
- Strings are sequences of Dafny characters; the code's strings are bytes. All separators are ASCII.
