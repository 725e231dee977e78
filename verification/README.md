# provider-strapi: a verified model

This project models the logic of a Crossplane provider that manages the permission sets of
Strapi's users-permissions roles, and proves what that logic guarantees. `dafny verify
dfyconfig.toml` checks everything.

| file | what it models |
|---|---|
| `GoStrings.dfy`, `Sorting.dfy` | the string, number and sorting operations taken from Go's standard library |
| `FlatNames.dfy` | the flat spelling of a permission: `splitFlat` and the printer in `FlattenPermissions` |
| `Permissions.dfy` | permission trees and `FlattenPermissions` |
| `PermissionLists.dfy` | `ExpandPermissions`, and what flattening and expanding do to each other |
| `Roles.dfy` | `FindRole`, and the full-replace PUT |
| `Controller.dfy` | the server, the custom resource, and the external client: Observe, Create, Update, Delete |
| `CallResults.dfy` | what these calls return, leave in the resource and do to the server |
| `Sessions.dfy` | runs of these calls on one in-memory resource: pinning and frame |
| `Reconcile.dfy` | runs of the controller under the managed reconciler: convergence |
| `Deletion.dfy` | runs of a deletion: safety and progress |
| `EventEffects.dfy` | what a reconcile writes back, and how each event takes effect in the next reconcile |
| `Fleet.dfy` | several resources on one server, also on one role: when all of them settle |
| `Members.dfy` | what a run of several resources is for each of them |
| `Departures.dfy` | one resource of a settled fleet is deleted |
| `TokenClient.dfy` | the client with one token, one mutex and one retry, under every interleaving of `Do` calls |
| `LoginsPerExpiry.dfy` | when there is one login per expired token, and how far it is missed |
| `DoCalls.dfy` | what each call does whatever the others do: one retry, bounded work, the code's `Do` |
| `Requests.dfy` | which replies each call got, what it did about them, and which tokens its requests carried |
| `ClientPool.dfy`, `ClientCache.dfy` | several clients, and the cache that makes them |
| `Provider.dfy` | cache, clients, calls and several resources in one run, where each request is a call of its own |
| `ReconcileCalls.dfy` | how many calls a reconcile makes, and what its PUT call changes |
| `EndToEnd.dfy` | what that run guarantees: deletion and convergence down to the calls |

Code that updates state is modelled by methods and classes (`StrapiServer`, `RolePermissions`,
`External`, `Client`, `Cache`) whose contracts equate the new state with a function of the old one;
the theorems are about those functions and the runs they make. Everything that the environment
decides (replies, lost writes, foreign changes, the order in which a map is walked, scheduling) is
an input or an arbitrary choice, so each theorem holds for all of it.

Assumptions. The reconciler of crossplane-runtime is not part of this model; its dispatch is written
out in `Reconcile.Turned`, after the comments at rolepermissions.go 213-218, 263-266 and 277-278.
Role IDs are distinct. After a PUT the server holds the enabled leaves it was sent and may add
disabled ones. Whether the annotation or the status written in memory is persisted is open in every
reconcile. A Go string is a sequence of bytes, one `char` each; `int` is 64 bits wide.

Where the code and its documentation differ, the model follows the code:

- An empty permission list never converges. The sorted copy of an empty list is nil, the flattened
  tree is empty but not nil, and `reflect.DeepEqual` tells them apart, so every reconcile sends a PUT
  (`Reconcile.EmptySpecNeverSettles`). The same holds for a list with a duplicate, an entry that does
  not parse, or an entry not in normal form (`Reconcile.Convergence`).
- The comment on `splitFlat` speaks of a wrong segment count; controllers may contain dots, so there
  is no upper limit (`FlatNames.ParserMeetsGrammar`).
- The cache is said to be keyed by the effective configuration; the key uses the endpoint before its
  trailing slashes are removed (`ClientCache.SettingsSplitIff`).
- The `role` field is documented as matching the type for built-in roles and the name for others; the
  code tries the type and then the name for every selector. `Roles.DocumentedIff` says exactly when
  that finds the same role, `Roles.DocumentedDiffers` gives two inputs for which it does not.
- The permission list is called authoritative for its role. Two resources for one role that name
  different triples overwrite each other for ever (`Fleet.FleetConverges`, `Fleet.FleetQuarrels`).
- The PUT replaces name, description and type with what was listed, so a change of these between the
  listing and the PUT is undone (`Sessions.ForeignChangeSurvives`).

The comments say that the client logs in again once after a 401 and that logins keep to one per
provider lifetime in steady state, which suggests one login per expired token. That expectation fails
once calls overlap: `invalidate` drops whatever token is held, even one just renewed. It holds in all
schedules with at most `n` calls in flight if and only if `n <= 1`
(`LoginsPerExpiry.OneLoginPerExpiryIff`), and `n` calls that share a token can cost `n + 1` logins
(`LoginsPerExpiry.BoundIsReached`). The exact count is `TokenClient.LoginAccounting`.

## Model

| member | source | states |
|---|---|---|
| FlatNames.ParserMeetsGrammar | internal/clients/strapi/roles.go:199-251 | the parser returns a triple exactly for the spellings the reference grammar gives it: `resource.controller.action`, or `resource.action` when an api controller is its content type |
| FlatNames.PrintParse | internal/clients/strapi/roles.go:145-167 | printing a triple and parsing it returns the triple if and only if it is well formed |
| FlatNames.PrintInjective | internal/clients/strapi/roles.go:145-149 | well-formed triples never collide when printed |
| FlatNames.Normalisation | internal/clients/strapi/roles.go:223-240 | normalising an entry drops an explicit api controller equal to the content type and changes nothing else; it keeps the parse and is idempotent |
| FlatNames.NormalFormsAreNames | internal/clients/strapi/roles.go:201-221 | what parses is well formed, and two entries have the same normal form exactly when they name the same triple |
| FlatNames.PrintAlikeIff | internal/clients/strapi/roles.go:145-167 | exactly when any two triples print alike: with dot-free actions, the same action and either the same leaf, a resource that the other continues with its controller, or the same segments shared out differently |
| FlatNames.PrintCollides | internal/clients/strapi/roles.go:145-167 | for a whole family, a well-formed triple and a different, ill-formed one print the same string, so well-formedness cannot be dropped from PrintInjective |
| Sorting.SortStrings | internal/clients/strapi/roles.go:153 | the result of `sort.Strings` is a permutation in ascending byte order |
| Sorting.LeqIsByteOrder | internal/clients/strapi/roles.go:153 | one string is before another exactly if it is a prefix of it or has the smaller byte where they first differ |
| Sorting.SortedUnique | internal/clients/strapi/roles.go:153 | there is only one sorted permutation, so the sorting algorithm does not show |
| Permissions.FlattenActions | internal/clients/strapi/roles.go:141-150 | the innermost loop, in any order of the map, appends each enabled action of a controller printed once |
| Permissions.FlattenControllers | internal/clients/strapi/roles.go:140-152 | the loop over controllers, in any order, adds every enabled leaf of a resource printed once |
| Permissions.FlattenPermissions | internal/clients/strapi/roles.go:137-155 | the three loops and the sort compute the specified list, ascending in byte order, whatever order the maps are walked in |
| Permissions.AnyTraversal | internal/clients/strapi/roles.go:126-155 | every enumeration of the enabled leaves, printed and sorted, gives the same list, with one string for each enabled leaf |
| PermissionLists.FlattenMeaning | internal/clients/strapi/roles.go:126-155 | the list is ascending in byte order, as long as the number of enabled leaves, holds exactly their printed names, and has no repetition exactly when no two leaves print alike |
| PermissionLists.WellFormedFlattens | internal/clients/strapi/roles.go:126-155 | with well-formed leaves the list is strictly increasing, normal, and parses back to exactly the leaves |
| PermissionLists.ExpandPermissions | internal/clients/strapi/roles.go:177-197 | the loop over nested maps computes the specified tree |
| PermissionLists.ExpandMeaning | internal/clients/strapi/roles.go:169-197 | the tree enables exactly the triples the parseable entries name, has no empty map, and every action is enabled with a blank policy |
| PermissionLists.CanonicalDetermined | internal/clients/strapi/roles.go:177-197 | trees without empty maps and with only blank enabled actions are equal exactly when they enable the same leaves |
| PermissionLists.SameTreeIff | internal/clients/strapi/roles.go:169-197 | two lists expand to the same tree exactly when their sets of normal forms are equal; order, duplicates and malformed entries do not matter |
| PermissionLists.FlattenOfExpand | internal/clients/strapi/roles.go:126-197 | expanding and flattening any list gives the strictly increasing list of the normal forms of its parseable entries |
| Sorting.StrictlySortedUnique | internal/clients/strapi/roles.go:136-154 | a strictly increasing list is determined by its elements, so FlattenOfExpand names one list |
| PermissionLists.RoundTripIff | internal/clients/strapi/roles.go:126-197 | expanding and flattening equals sorting if and only if all entries are normal and distinct |
| PermissionLists.PruneMeaning | internal/clients/strapi/roles.go:60-66 | pruning a tree to blank enabled leaves without empty branches keeps its enabled leaves |
| PermissionLists.ExpandOfFlatten | internal/clients/strapi/roles.go:126-197 | flattening and expanding a tree prunes it if and only if all its enabled leaves are well formed |
| PermissionLists.FlattenTwice | internal/clients/strapi/roles.go:126-197 | a flattened tree survives another round trip exactly when its enabled leaves print as normal spellings, no two of them alike; well-formed leaves do |
| Roles.FindRole | internal/clients/strapi/roles.go:111-124 | the two search loops return the specified role |
| Roles.SelectedMeaning | internal/clients/strapi/roles.go:107-124 | that role is the first of the type, else the first of the name, and there is none exactly when no role has the type or the name |
| Roles.DocumentedIff | apis/permissions/v1alpha1/rolepermissions_types.go:29-34 | the code finds the role the field documents if and only if: for a built-in selector, some role has the type or none has the name; for another, no role has it as type or the first that has is the first of the name |
| Roles.DocumentedDiffers | internal/clients/strapi/roles.go:107-124 | with a selector that is one role's type and another's name, and with a built-in type that is only a name, the code finds another role than documented |
| Roles.SelectorCase | internal/clients/strapi/roles.go:107-112 | the letter case of a selector does not change the result |
| GoStrings.EqualFoldMeaning | internal/clients/strapi/roles.go:114 | strings match if they are as long and match byte by byte, where a letter matches the same letter of the other case |
| GoStrings.AtoiMeaning | internal/controller/rolepermissions/rolepermissions.go:298 | the strings that read as a number are an optional sign and one or more decimal digits whose value, with that sign, fits into 64 bits, and that value is what they read as |
| GoStrings.ItoaMeaning | internal/controller/rolepermissions/rolepermissions.go:211 | an ID is written in decimal, signed exactly if negative, without a needless zero |
| GoStrings.AtoiOfItoa | internal/controller/rolepermissions/rolepermissions.go:211 | writing a signed 64-bit ID in decimal and reading it back gives the ID |
| Controller.TargetMeaning | internal/controller/rolepermissions/rolepermissions.go:285-318 | an external name that is a 64-bit decimal numeral of a listed ID decides the role, the first with that ID; an empty, non-numeric, too large or unlisted one leaves it to the selector |
| Controller.StrapiServer.UpdateRole | internal/clients/strapi/roles.go:91-105 | a PUT replaces the whole role with that ID, unless refused or unknown, and every PUT is logged |
| Controller.External.ResolveRole | internal/controller/rolepermissions/rolepermissions.go:291-318 | the listing and the search loop resolve the specified role or error |
| Controller.External.Observe | internal/controller/rolepermissions/rolepermissions.go:205-238 | the new annotation, status and result are the specified ones, and the server is untouched |
| Controller.External.Create | internal/controller/rolepermissions/rolepermissions.go:240-249 | the resource is untouched, and the server and result are those of the specified PUT |
| Controller.External.Update | internal/controller/rolepermissions/rolepermissions.go:251-256 | the same as Create |
| Controller.External.Delete | internal/controller/rolepermissions/rolepermissions.go:258-281 | the server is that of the specified empty PUT, and the flag is set exactly when it was acknowledged |
| CallResults.PutMeaning | internal/clients/strapi/roles.go:91-105 | a PUT changes nothing if it is refused or no role has its ID; else the roles with that ID have the name, description, type and enabled permissions of the body, and the others are untouched |
| CallResults.ObserveErrors | internal/controller/rolepermissions/rolepermissions.go:205-209 | Observe fails exactly if the listing fails or no role is resolved, with the error for it, and then changes nothing |
| CallResults.ObserveReports | internal/controller/rolepermissions/rolepermissions.go:211-238 | Observe reports absence exactly for a deleted and cleared resource, drops a stale flag otherwise, writes the role's ID in decimal as annotation, reports its ID, its type and its enabled leaves in ascending order, and finds it up to date exactly if the spec is nonempty and lists those leaves, each as often |
| CallResults.ApplyMeaning | internal/controller/rolepermissions/rolepermissions.go:240-256 | Create and Update succeed exactly if the listing is up, a role is resolved, its ID is listed when the PUT arrives, and the PUT is acknowledged; the role then has exactly the spec's triples enabled; each failure has its error |
| CallResults.DeleteMeaning | internal/controller/rolepermissions/rolepermissions.go:258-281 | Delete succeeds in the same cases; the role then has nothing enabled, and the flag is set exactly if it succeeds |
| Sessions.PutFrame | internal/controller/rolepermissions/rolepermissions.go:320-330 | a PUT built from the listing changes the enabled permissions of that one role and no role's identity |
| Sessions.ForeignChangeSurvives | internal/controller/rolepermissions/rolepermissions.go:320-330 | a foreign change of a role's name, type or description between listing and PUT survives the call exactly if the PUT is refused, the role is not the resolved one, or the change gave it what was listed; otherwise it is undone |
| Sessions.Frame | internal/clients/strapi/roles.go:91-105 | over any run of calls in which nobody else writes every role keeps its ID, name, type, description and place, and a role whose permissions changed was sent a PUT |
| Sessions.Pinning | internal/controller/rolepermissions/rolepermissions.go:285-318 | after Observe resolved ID n, every later PUT on the same in-memory resource goes to n while n stays listed, through renames, reorderings, edits and changes made during a call; the annotation names n at the end and resolves to it |
| Reconcile.UpToDateIff | internal/controller/rolepermissions/rolepermissions.go:223-237 | when the role grants exactly what the spec names, Observe finds it up to date if and only if the spec is nonempty, distinct and normal |
| Reconcile.AfterFirstPut | internal/controller/rolepermissions/rolepermissions.go:205-256 | from then on, in calm runs of any length, the enabled set stays what the spec names, and there are no PUTs if the spec settles and one in every reconcile if it does not |
| Reconcile.Convergence | internal/controller/rolepermissions/rolepermissions.go:205-256 | the exact number of PUTs of a calm run: none if the first Observe is satisfied, else one if the spec is nonempty, distinct and normal, else one per reconcile; after the first PUT the role grants exactly what the spec names |
| Reconcile.EmptySpecNeverSettles | internal/controller/rolepermissions/rolepermissions.go:223-237 | with an empty spec every calm reconcile sends a PUT |
| Fleet.UpToDateExactly | internal/controller/rolepermissions/rolepermissions.go:223-237 | on a role whose enabled leaves flat names can describe, Observe is satisfied if and only if the spec is nonempty, distinct, normal and names exactly the enabled leaves |
| Fleet.FleetConverges | internal/controller/rolepermissions/rolepermissions.go:205-256 | once every resource of a server that is not deleted was reconciled, in any order, all are satisfied if and only if for each role its resources all were before or their specs settle and name the same triples; then one PUT was sent for each role that some resource wanted changed |
| Fleet.FleetQuarrels | internal/controller/rolepermissions/rolepermissions.go:205-256 | otherwise every further round over the resources sends a PUT, for ever |
| Fleet.CompatibleIff | internal/controller/rolepermissions/rolepermissions.go:223-237 | on such roles the condition is that every spec settles and any two for the same role name the same triples |
| EventEffects.TurnWrites | internal/controller/rolepermissions/rolepermissions.go:205-281 | a reconcile writes neither spec nor deletion mark; without a listing or a role it changes nothing |
| EventEffects.ResolvedWrites | internal/controller/rolepermissions/rolepermissions.go:205-281 | what a reconcile writes back tells about the role Observe found: its ID, its type, its enabled leaves; only a deleted and cleared resource keeps its status, and goes |
| EventEffects.EditTakesEffect | internal/controller/rolepermissions/rolepermissions.go:320-330 | after an edit the next calm reconcile gives the role of the edited selector the edited permissions, and no other role changes |
| EventEffects.AnnotationTakesEffect | internal/controller/rolepermissions/rolepermissions.go:297-306 | after the annotation was set to a listed role's ID the next calm reconcile applies to that role |
| EventEffects.DriftTakesEffect | internal/controller/rolepermissions/rolepermissions.go:291-295 | the next calm reconcile applies to the roles as others have left them |
| EventEffects.MarkTakesEffect | internal/controller/rolepermissions/rolepermissions.go:213-221 | after the deletion mark the next calm reconcile clears the role and keeps the flag, unless a stale flag was there already: then the resource goes at once |
| EventEffects.CallsApply | internal/controller/rolepermissions/rolepermissions.go:240-281 | after an edit of the resource in memory, Create and Update give the role it then resolves to exactly what the edited spec names, and Delete leaves it nothing and sets the flag |
| EventEffects.ForeignIsObserved | internal/controller/rolepermissions/rolepermissions.go:205-232 | Observe reports the role as others have left it |
| Deletion.ClearedByWipe | internal/controller/rolepermissions/rolepermissions.go:258-281 | the flag is newly kept only by a reconcile in which Delete's empty PUT to its target was acknowledged |
| Deletion.ClearedStays | internal/controller/rolepermissions/rolepermissions.go:213-221 | once kept on a deleted resource the flag stays, and no PUT is ever sent again |
| Deletion.DeletionSafety | internal/controller/rolepermissions/rolepermissions.go:205-281 | in every run, with failures, lost writes, edits and other writers at any point, a finalizer is dropped only after an acknowledged empty PUT; no PUT follows it, and without other writers that role still has nothing enabled at the end |
| Deletion.WipedTargetAtEnd | internal/controller/rolepermissions/rolepermissions.go:258-318 | without other writers, edits or annotations since, the role the resource resolves to at the end is the wiped one, even if its ID was never written back |
| Deletion.DeletionIff | internal/controller/rolepermissions/rolepermissions.go:205-281 | in every run a deletion has gone exactly as many phases as reconciles advanced it, where one advances if the requests it needs succeed and find a role that stays listed; it is drained exactly when there were enough |
| Deletion.DeletionProgress | internal/controller/rolepermissions/rolepermissions.go:205-281 | two reconciles in which no request and no status write fails drain a deleted resource whose role they can resolve, whatever else happens between them and whatever others write during them |
| Deletion.CalmFinds | internal/controller/rolepermissions/rolepermissions.go:285-318 | if nobody else writes during a reconcile, it is enough that Observe finds the role |
| Deletion.StuckWithoutRole | internal/controller/rolepermissions/rolepermissions.go:205-221 | while no reconcile can resolve the role nothing is sent, the status stays, and a deleted resource never goes, even if it was cleared |
| Members.MemberRun | internal/controller/rolepermissions/rolepermissions.go:196-330 | in any run of several resources on one server each goes through a run of the reconciler of one resource, in which the others' PUTs are foreign changes |
| Members.PutsAddUp | internal/clients/strapi/roles.go:91-105 | the PUTs of these runs add up to the PUTs of the whole |
| Members.MemberDeletionSafety | internal/controller/rolepermissions/rolepermissions.go:205-281 | DeletionSafety holds for each resource among others |
| Departures.Departure | internal/controller/rolepermissions/rolepermissions.go:205-281 | when one resource of a settled fleet is deleted, calm reconciles of it and of the others, in any order after its first, make it go; the others are satisfied if and only if those on its role agree; this costs one PUT, and one more if the role is shared |
| TokenClient.NewMeaning | internal/clients/strapi/strapi.go:79-97 | `New` refuses exactly the configurations with a missing part, and keeps everything but trailing slashes of the endpoint |
| TokenClient.Client.TokenLocked | internal/clients/strapi/strapi.go:169-182 | the held token, or the one of a login that succeeds, which is then held |
| TokenClient.LockedMeaning | internal/clients/strapi/strapi.go:169-182 | the token returned is the nonempty one held, or if none is held the nonempty one in the login's body, and it is kept; without either there is none |
| TokenClient.DoMeaning | internal/clients/strapi/strapi.go:106-161 | without a token nothing is sent and `Do` fails; an error or a status other than 401 is returned at once; after a 401 one more request is sent with a token there is then, and its reply is returned, or `Do` fails if there is none; each request carries that token |
| TokenClient.Client.Do | internal/clients/strapi/strapi.go:102-118 | the token left, the reply returned and the tokens its requests carried are the specified ones, whatever token other calls leave at each point where the mutex is free |
| DoCalls.SectionIsLocked | internal/clients/strapi/strapi.go:169-182 | in the concurrent model a token section does what `tokenLocked` does, however long its login takes and whatever runs meanwhile, and the call goes on with the token that it returns |
| DoCalls.DoAmongOthers | internal/clients/strapi/strapi.go:102-188 | wherever other calls' steps fall, a call of the concurrent model ends with the reply that `Do` returns among the tokens they leave, and its requests carry the same tokens; the mutex need be free only when the call takes it |
| DoCalls.DoAlone | internal/clients/strapi/strapi.go:102-188 | a call that runs alone ends with the token and the reply of `Do` |
| TokenClient.InvStep | internal/clients/strapi/strapi.go:106-188 | every step of every call keeps the lock, token, history and accounting invariants |
| TokenClient.RetryTokenIsNewer | internal/clients/strapi/strapi.go:106-118 | in every interleaving a retry's token comes from a login begun after that call's invalidation, so after the login behind its first token |
| TokenClient.LoginAccounting | internal/clients/strapi/strapi.go:169-188 | in every interleaving successful logins are the invalidations that dropped a token plus one if a token is held, so at most one more than first attempts answered 401 |
| LoginsPerExpiry.OneLoginPerExpiryIff | internal/clients/strapi/strapi.go:106-118 | there is at most one login per expired token beside the first in all schedules with at most n calls in flight if and only if n is at most one |
| LoginsPerExpiry.SequentialCalls | internal/clients/strapi/strapi.go:106-118 | in every schedule whose calls do not overlap, logins are at most one more than the distinct tokens whose first use was answered 401 |
| LoginsPerExpiry.BoundIsReached | internal/clients/strapi/strapi.go:184-188 | for every n, n calls that share one token can all be rejected and cost n + 1 logins |
| TokenClient.ResponseNeedsLogin | internal/clients/strapi/strapi.go:142-182 | a call that got a response sent a token that some login gave |
| DoCalls.RetriedOnce | internal/clients/strapi/strapi.go:102-118 | each call, in every interleaving, makes at most two requests and one invalidation, the second request only after its invalidation, the invalidation only after its first 401; a finished call was retried exactly if it was rejected and got a second token |
| DoCalls.BoundedWork | internal/clients/strapi/strapi.go:102-118 | each call, in every interleaving, takes at most seven steps |
| TokenClient.NoDeadlock | internal/clients/strapi/strapi.go:169-188 | while a call is not done, some call can take a step |
| Requests.CallHistory | internal/clients/strapi/strapi.go:106-118 | in every interleaving, by the replies each call got: none, and it failed for want of a token; one other than 401, which it returned without invalidating; a 401, one invalidation, and then the reply to one more request, or a failure for want of a token |
| Requests.BearersAreIssued | internal/clients/strapi/strapi.go:142-182 | in every interleaving each request carries a nonempty token, the one in the body that ended the login the call remembers for it |
| Requests.HeldIsCarried | internal/clients/strapi/strapi.go:169-175 | a call that finds a token held when it takes the mutex goes on with that token |
| ClientCache.FingerprintText | internal/clients/strapi/cache.go:65-75 | what is hashed is endpoint, email, password and the TLS switch, in this order, with NUL bytes in between |
| ClientCache.FingerprintInjective | internal/clients/strapi/cache.go:65-75 | the hashed encoding determines the configuration when endpoint and email have no NUL byte, for any password |
| ClientCache.FingerprintUniqueIff | internal/clients/strapi/cache.go:65-75 | no other configuration at all has the encoding of this one if and only if its endpoint, email and password have no NUL byte |
| ClientCache.Cache.Get | internal/clients/strapi/cache.go:47-63 | the map, the clients made and the client returned are those of the specification, by identity of client objects |
| ClientCache.EntriesStay | internal/clients/strapi/cache.go:50-63 | over any sequence of Gets entries are never removed or replaced and clients keep their settings |
| ClientCache.KeysAre | internal/clients/strapi/cache.go:50-63 | the keys are those of the configurations asked for that `New` accepts, and there is one client for each, so failing Gets leave no trace |
| ClientCache.GetRefinesNew | internal/clients/strapi/cache.go:47-63 | Get fails exactly as `New` does and otherwise returns a client with the settings `New` gives |
| ClientCache.SharedIff | internal/clients/strapi/cache.go:26-63 | two successful Gets share a client if and only if their configurations are equal |
| ClientCache.SettingsSplitIff | internal/clients/strapi/cache.go:47-75 | accepted configurations have equal settings exactly if they differ in trailing slashes at most, and then get different clients exactly if their endpoints as configured differ |
| ClientCache.SlashSplitsClients | internal/clients/strapi/cache.go:65-75 | configurations that differ by a trailing slash get equal settings and different clients |
| Provider.PartsRun | internal/controller/rolepermissions/rolepermissions.go:71-84 | in a run of the whole provider the cache, every client and the fleet of resources each run as their own model says, no call serves two requests, whether listings or PUTs, and the PUTs are as many as the calls made for them |
| Provider.ClientWasGot | internal/clients/strapi/cache.go:47-63 | the client whose calls a reconcile uses is one that an earlier Get returned for its key |
| ClientPool.PoolBound | internal/clients/strapi/strapi.go:106-188 | over all clients, successful logins are at most the number of clients plus first attempts answered 401 |
| Provider.LoginBound | internal/clients/strapi/cache.go:26-36 | in every interleaving of Gets, calls and reconciles, successful logins are at most the distinct cached keys plus first attempts answered 401 |
| ReconcileCalls.CallsMade | internal/controller/rolepermissions/rolepermissions.go:205-281 | a reconcile makes one listing, another one exactly if the first got a 2xx and something is to be done, and a PUT exactly if that one got a 2xx too and finds a role |
| ReconcileCalls.PutTakesEffect | internal/controller/rolepermissions/rolepermissions.go:258-330 | if the PUT call arrives and its role is still listed, the role has what the spec names enabled, or nothing for a deletion; a PUT that was not sent with a token, or did not arrive, changes nothing; only a 2xx sets the flag |
| ReconcileCalls.WritesKept | internal/controller/rolepermissions/rolepermissions.go:205-238 | if its first listing got a 2xx and a role is found, a reconcile leaves the annotation and the status of that role, each unless that write is lost |
| ReconcileCalls.OutsideEvents | internal/controller/rolepermissions/rolepermissions.go:205-330 | edits, annotations and marks change that of one resource and nothing else, a drift all the roles and nothing else |
| EndToEnd.DrainedMeansWipedByCall | internal/controller/rolepermissions/rolepermissions.go:205-281 | end to end: a resource that is gone was wiped by a reconcile whose PUT was a call of its own, on the client a Get had returned for its key, that got a 2xx response with a token of a login; the resource sent nothing afterwards, and without other writers, other resources among them, the role still has nothing enabled |
| EndToEnd.ProviderConverges | internal/controller/rolepermissions/rolepermissions.go:71-84 | end to end: in any run from the start in which nobody else writes, the reconciles' calls succeed, with however many 401s and logins, and every resource that stays is reconciled, all are satisfied if and only if they were compatible, and then exactly one call was made for a PUT for each role that some resource wanted changed |

## Left out

- Roles.FindRole: letter case is compared in ASCII only, because the Unicode case tables are not part of this model.
- Roles.SelectorCase: stated for ASCII letter case, for the same reason.
- HTTP, TLS, timeouts, response bodies, JSON and error texts: a login or request has an arbitrary outcome.
- SHA-256: the key is any function of the encoding, and collision freedom is a hypothesis where needed.
- Status conditions, metrics, `Connect`, credential extraction, `ParseCredentials`, setup and `main`: wiring, or facts of one branch.
- `GetRole`, `Endpoint` and `DoJSON`'s decoding: one request each, with nothing to relate.
- Generated code, manifests, charts and scripts: no logic.
- Nil and empty maps in a tree: both are the empty map, since nothing modelled tells them apart.
- One slice shared by the three nested loops of `FlattenPermissions`: each loop is a method that returns the strings it appends; the order of appending is open either way.
- Wall-clock order in the run of the whole provider: a reconcile is one event that uses finished calls in the order they were started.
