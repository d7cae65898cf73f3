# Verified model of the Azure infrastructure connector

This project models the stateful and algebraic core of `baton-azure-infrastructure` and proves
properties of it in Dafny 4.11. `dafny verify dfyconfig.toml` checks everything.

## What is modelled

- **The role builder** (`RoleBuilder.dfy`): a class whose `Grants` answers from a per-subscription
  cache that `CacheRoleAssignments` fills page by page, and whose `Grant` and `Revoke` change a remote
  store. Histories of calls of one builder, with arbitrary page failures, are folds over these effects.
- **Concurrent fills of that cache** (`RoleCacheRace.dfy`): a state machine of any number of callers on
  any subscriptions. The hit check, each `cacheGet` and each `cacheSet` are atomic steps, and a caller
  may abort at any page. The main results: what any reachable cached list is made of, and exactly which
  assignments concurrent fills can lose, and `Grants` can miss, although nothing fails.
- **The same fills on Go's slices** (`SliceRace.dfy`): lists are slices of backing arrays, and `append`
  is a step of its own that writes in place when the capacity suffices. The main results: what no
  interleaving can overwrite, and that everything else can be lost.
- **Provisioning** (`Assignments.dfy`, `Provisioning.dfy`): the store of role assignments, the search of
  `getAssignmentID`, `Grant` and `Revoke` with faults, framing over histories of both builders, and the
  whole scenario of `test/grant-revoke.sh` as one theorem, for roles and for resource groups.
- **Revokes against syncs** (`Revocation.dfy`): which reported grants can be revoked, and how each grant
  and revoke changes what the next sync reports.
- **The resource-group role builder** (`ResourceGroupRoles.dfy`): the nested product `List` makes of
  three paged listings, the failure it reports, and its uncached `Grants`.
- **The sync of a group** (`Pagination.dfy`, `GroupSync.dfy`): the SDK's bag, one call of `Grants`, and
  whole runs from the empty token to the empty token over two page chains, with the cut-off at fifty
  entries and failing pages, and the IDs of all grants that runs over many groups report.
- **Enterprise applications** (`EntitlementIds.dfy`, `EnterpriseApplications.dfy`): the cache that `List`
  fills over whole runs, the two operations that dereference it, and the entitlement ID codec.
- **Shared parts**: splitting and joining (`Text.dfy`), the identifiers (`Identifiers.dfy`),
  `Convert` and `ConvertErr` (`Slices.dfy`), pagers (`Paging.dfy`), the Graph client's `query`
  (`GraphClient.dfy`), the principal lookup (`Directory.dfy`) and lemmas that span builders
  (`CrossBuilder.dfy`).

Each method is proved equal to a function of its inputs and the old state; the theorems are lemmas
about those functions. What each operation answers is also stated without its functions, from the
inputs, the texts of the source and reference definitions (`ReportAnswers`, `MemberGrantsByKind`,
`GrantExactly`, `RevokeExactly`, `ScopeGrantsExactly`, `ListExactly` and their like). A Go panic is an outcome (`Panicked`, `GrantsPanicked`, `None`), not a
precondition, and lemmas say exactly when it happens.

## What stands for the outside world

- A pager is a `Listing`: finitely many pages, of which one may fail. A client that cannot be made is a
  listing whose page 0 fails, or a create call that is `Lost(false)`.
- Azure's create and delete calls are `CreateEffect` and `DeleteEffect`: without a fault, create refuses
  with status 409 a name in use at the scope and a second assignment of one role to one principal at one
  scope; delete answers without an ID when the name is unknown. A call may also be refused with any
  status, or lose its reply before or after taking effect.
- The listing of a scope serves the assignments made at every scope of which a parameter `shows` is true,
  in any order; it must be true of the scope itself. A sync and a revoke at one scope see the same
  assignments: `pkg/connector/role.go:304` and `pkg/connector/helper.go:750` build the same request for a
  subscription, and the resource-group builder lists and searches one scope.
- `append` on Go's slices may give a new array any sufficient capacity; one append is one step.
- The new assignment name (a random UUID) is a parameter, assumed unused only in the scenario theorems.
- Graph is a function from URLs (or endpoint and ID) to replies; URLs of the two group listings are
  parameters. For those listings a reply is an HTTP exchange, and `GraphClient.Query` is what the SDK's
  `Do` and `doRequest` make of it. In a history of `List` calls of the enterprise builder each call has
  its own Graph.

## Findings the theorems record

- Callers of `cacheRoleAssignments` that all miss and all finish can lose every assignment that is not on
  page 0, and only those (`LostExactlyBehindPageZero`). Without writes in place the last page is safe as
  well, and two callers suffice to drop every page between (`LostExactlyInTheMiddle`).
- A caller that has filled the whole list itself, or has hit, can read a list of page 0 alone (`MissedExactly`).
- A fill that fails after its first page leaves a partial list which every later `Grants` serves as if
  complete (`PartialFillIsServed`).
- `Grant` reports success for every response error of the create call (`GrantSuccess`, `RefusedGrantSucceeds`).
- `test/grant-revoke.sh` runs the second revoke of one grant under `set -e`; the code returns an error
  there, and the model follows the code (`CycleStores`).
- `Revoke` finds the assignment listed first and deletes by its name at its own scope. A grant that a sync
  reports from another scope is found and then not deleted, which is an error; and when a user has a role
  at both scopes, the order of the listing decides whether the revoke works (`ReportedGrantRevocable`,
  `RevocableExactly`, `RevocableAtScope`).
- The grants of a sync share an ID exactly when one principal has one role by two listed assignments
  (`ReplyIdsDistinct`).
- A group sync loses the pages after a page of at most fifty entries (`CutLosesNothing`).
- The branch of `Grants` that skips a missing listing (`pkg/connector/group.go:144-153`) is never taken:
  a 404 fails earlier, in the SDK and again at `pkg/connector/client_graph.go:128`, so `query` never
  answers `ErrNotFound` (`QueryMeaning`) and a 404 fails the call (`BadResponseFails`, `MissingGroupFails`).
- A sync of an enterprise application from the empty token never reports its owners (`FreshRunSkipsOwners`).
- A listed application panics in `Grants` from the empty token exactly when, all `List` calls having
  succeeded, no application was returned under its ID without the prefix `applications/`
  (`ListedPanicsExactly`); there is such an application (`PrefixedAppPanics`).
- The role builders report a group principal as a resource group, unlike the group sync (`SamePrincipalExceptGroups`).

## Model

| member | source | states |
|---|---|---|
| Text.SplitConcat | pkg/connector/role.go:108 | Splitting two texts around a separator is splitting each: the law all ID readers rest on |
| Text.SplitCount | pkg/connector/role.go:154-161 | The containment test agrees with the part count; parts are separator-free and shorter than the text that was cut |
| Text.SplitJoin | pkg/connector/enterprise_applications.go:357-382 | Split undoes Join on separator-free parts |
| Text.JoinSplit | pkg/connector/enterprise_applications.go:382 | Join undoes Split on every text |
| Text.JoinInjective | pkg/connector/enterprise_applications.go:360-375 | Joins of separator-free parts are equal only for equal part lists |
| Identifiers.RoleIdOfDefinition | pkg/connector/helper.go:516-525 | What `getRoleId` keeps of any role definition ID, slashes included |
| Identifiers.RoleIdPanics | pkg/connector/helper.go:516-525 | `getRoleId` panics exactly on text with one slash, and is empty on text without any |
| Identifiers.ReadRoleResource | pkg/connector/role.go:153-164 | A role resource ID is accepted and read back exactly when neither part holds a colon |
| Identifiers.RoleIdRoundTrip | pkg/connector/role.go:158-176 | From definition ID through `getRoleId` and the split back to the definition ID and scope, exactly for parts without slash and colon |
| Identifiers.RoleIdInjective | pkg/connector/helper.go:516-525 | `getRoleId` is injective on the definition IDs of such parts |
| Identifiers.ScopesApart | pkg/connector/resource_group_role_assignment.go:192 | Scopes of different subscriptions or resource groups differ, and a role's scope is never a resource group's |
| Identifiers.RoleGrantIdInjective | vendor/github.com/conductorone/baton-sdk/pkg/types/grant/grant.go:59-84 | The ID of a role grant tells subscription, role and principal |
| Identifiers.ResourceGroupIdRoundTrip | pkg/connector/helper.go:401-403 | The colon split of `Grants`, `Grant` and `Revoke` recovers the triple exactly when no part holds a colon |
| Identifiers.ResourceGroupIdInjective | pkg/connector/resource_group_role_assignment.go:113-118 | Distinct triples have distinct IDs |
| Identifiers.RoleTargetExactly | pkg/connector/role.go:106-112 | What the role builder reads from any resource ID: role and subscription with exactly one colon, else nothing |
| Identifiers.ResourceGroupTargetExactly | pkg/connector/resource_group_role_assignment.go:113-118 | What the resource-group builder reads: group, subscription and role with exactly two colons, else nothing |
| Identifiers.Paths | pkg/connector/role.go:174-176 | The scopes and role definition IDs as the texts Azure is asked with |
| Slices.ConvertErr | pkg/internal/slices/convert.go:17-30 | The loop computes the conversion: first error, or the non-nil results in order |
| Slices.Convert | pkg/internal/slices/convert.go:4-14 | The loop without errors computes the same conversion |
| Slices.ConvertedMeaning | pkg/internal/slices/convert.go:17-30 | Conversion is "map, stop at the first error, drop nil", against an independent definition |
| Slices.ConvertedConcat | pkg/internal/slices/convert.go:17-30 | Conversion is a homomorphism over concatenation |
| Slices.ConvertedPages | pkg/connector/helper.go:290-333 | Converting page by page and joining is converting the joined pages |
| Directory.GetPrincipalType | pkg/connector/helper.go:527-557 | The loop over four endpoints that reuses one map of fields |
| Directory.PrincipalTypeMeaning | pkg/connector/helper.go:527-557 | The kind is settled by the first endpoint that fails or whose gathered fields decide; otherwise it is empty |
| Directory.AsksInOrder | pkg/connector/helper.go:527-557 | The kind is what the four named endpoints, asked in this order, settle on, against a reference over their answers |
| Directory.DirectoryObjectDecides | pkg/connector/helper.go:534-553 | The first endpoint's object type settles the kind; without a service principal type the leftover type lets the next answer supply it |
| Assignments.ReportGrants | pkg/connector/role.go:119-138 | The loop of `Grants` over assignments, with its skips and the panic on a nil principal |
| Assignments.ReportIsFilter | pkg/connector/role.go:120-137 | `Grants` is the listing filtered by role and resolvable principal, in order, one grant each; it panics exactly on an unmapped matching principal |
| Assignments.ReportAnswers | pkg/connector/role.go:120-137 | By the kind Graph reports: each of the four kinds adds one grant to its own resource type, another role or a failed lookup adds nothing, any other kind panics; in the listing's order |
| Assignments.GetAssignmentID | pkg/connector/helper.go:743-771 | The result, and the number of pages fetched: none after the page of the match |
| Assignments.FirstMatchMeaning | pkg/connector/helper.go:758-766 | A name is found exactly when some listed assignment matches, and it is the first one's |
| Assignments.AssignmentIDMeaning | pkg/connector/helper.go:743-771 | The search ends with the first matching name served, the failure of a page, or that there is none |
| Assignments.FirstMatchConcat | pkg/connector/helper.go:752-768 | The search does not depend on the page split |
| Provisioning.RoleAssignmentStore.Create | pkg/connector/role.go:188 | The assumed effect of the create call, faults included |
| Provisioning.RoleAssignmentStore.Delete | pkg/connector/role.go:267-274 | The assumed effect of the delete call, faults included |
| Provisioning.GrantExactly | pkg/connector/role.go:141-218 | The error of `Grant` and the store after it, for every principal, target and fault: a lost create call is an error whether or not it took effect |
| Provisioning.RevokeExactly | pkg/connector/role.go:220-282 | The error of `Revoke` and the store after it, for every principal, target, listing and fault |
| Provisioning.GrantSuccess | pkg/connector/role.go:187-217 | After a successful `Grant` the role is held exactly when it was before or the create call went through under a free name |
| Provisioning.RefusedGrantSucceeds | pkg/connector/role.go:189-204 | Every refused create call is reported as success and changes nothing |
| Provisioning.RevokeSuccess | pkg/connector/role.go:249-281 | `Revoke` succeeds exactly when the assignment was served, the delete had no fault and the name was still there |
| Provisioning.RejectedChangesNothing | pkg/connector/role.go:143-161 | A call with a non-user principal or a wrong part count fails and leaves the store alone |
| Provisioning.StepFrame | pkg/connector/role.go:141-282 | One call changes the store only at its own scope: a grant at its own name and binding, a revoke at a name its listing served for its principal and role; if the listing is true and names are unique, only that binding |
| Provisioning.HistoryFrame | pkg/connector/resource_group_role_assignment.go:159-305 | The same over every history of calls of both builders, with stale listings and with true ones |
| Provisioning.HeldOfReport | pkg/connector/role.go:120-137 | A user is reported once for each listed assignment of the role |
| Provisioning.SyncWithout | pkg/connector/role.go:101-139 | A sync reports nothing to a user without a shown assignment |
| Provisioning.SyncWith | pkg/connector/role.go:101-139 | A sync after the assignment reports exactly one grant to the user |
| Provisioning.FindMade | pkg/connector/helper.go:743-771 | The search finds the assignment just made, among those of all shown scopes |
| Provisioning.CycleOfStores | test/grant-revoke.sh:21-45 | The scenario's calls on the store: the revoke restores it, the second grant changes nothing, the second revoke fails |
| Provisioning.ProvisioningCycle | test/grant-revoke.sh:18-49 | Sync, grant, sync, grant again, revoke, revoke again, sync, grant, sync, for every store, target, user and listings; the revoke restores the store |
| Provisioning.CycleSetupMet | test/grant-revoke.sh:18-49 | The scenario's premises can be met for every target and user, whatever scopes are shown |
| Revocation.RevokeOutcome | pkg/connector/role.go:244-282 | The three ends of a revoke without faults, and the store after it, from what the listing shows and its order |
| Revocation.RevocableExactly | pkg/connector/role.go:244-282 | A revoke succeeds for every order and page split of the listing exactly when one assignment is shown and all shown ones have names in use at the scope |
| Revocation.RevocableAtScope | pkg/connector/resource_group_role_assignment.go:274-296 | With unique names: exactly when all shown ones are made at the scope itself; and no other binding is ever deleted |
| Revocation.SyncCounts | pkg/connector/role.go:119-138 | A sync reports a user's role exactly as often as the listing shows it assigned |
| Revocation.GrantCounts | pkg/connector/role.go:187-217 | The reported grants grow by one exactly when the create call made an assignment |
| Revocation.RevokeCounts | pkg/connector/role.go:249-281 | The reported grants shrink by one exactly when the revoke succeeds |
| Role.RoleBuilder.constructor | pkg/connector/role.go:284-290 | A fresh builder has an empty cache |
| Role.RoleBuilder.CacheGet | pkg/connector/role.go:32-37 | Value and presence of a subscription's list |
| Role.RoleBuilder.CacheSet | pkg/connector/role.go:39-43 | Replaces one subscription's list and no other |
| Role.RoleBuilder.CacheRoleAssignments | pkg/connector/role.go:292-316 | The page loop: hit, full fill, or a partial fill with an error |
| Role.RoleBuilder.Grants | pkg/connector/role.go:101-139 | Reply and new cache |
| Role.RoleBuilder.Grant | pkg/connector/role.go:141-218 | Error and new store; the cache is not touched |
| Role.RoleBuilder.Revoke | pkg/connector/role.go:220-282 | Error and new store; the cache is not touched |
| Role.CacheFrozen | pkg/connector/role.go:293-295 | A present list never changes again, whatever calls follow |
| Role.CacheOfHistory | pkg/connector/role.go:292-316 | After any history the list is absent exactly when no fill was served a page, else it is the pages of the first fill that was |
| Role.GrantsAfterHistory | pkg/connector/role.go:114-119 | What `Grants` replies after any history; grants and revokes do not show in it |
| Role.GrantsAnswerHistory | pkg/connector/role.go:101-139 | The same by the kinds of the principals |
| Role.PartialFillIsServed | pkg/connector/role.go:307-309 | A failed fill's prefix is served by all later calls |
| Role.CachedIsListing | pkg/connector/role.go:119-138 | After a clean fill, `Grants` is the uncached listing filtered by the role |
| Role.EachAssignmentOnce | pkg/connector/role.go:120-137 | Over all distinct roles of a subscription each assignment of one of them is selected exactly once |
| Role.EachAssignmentReportedOnce | pkg/connector/role.go:101-139 | After a clean fill, the replies of `Grants` on all distinct roles together hold one grant for each such assignment and no other; they panic exactly on an unmapped one |
| Role.ReplyIdsDistinct | vendor/github.com/conductorone/baton-sdk/pkg/types/grant/grant.go:59-84 | The IDs of all grants of a sync of a subscription's roles are distinct exactly when no principal has one role by two listed assignments |
| Role.ReportedGrantRevocable | pkg/connector/role.go:220-282 | What revoking a reported user grant comes to, the search seeing the listing of the sync; it works in every order exactly when all shown assignments have names in use at the subscription |
| Role.RoleProvisioningCycle | test/grant-revoke.sh:18-49 | The scenario for a role listed through `getRoleId`, each sync by a fresh builder |
| Role.Scenario | test/grant-revoke.sh:18-49 | From the scenario's premises: its calls on builder objects, a new one for each step, with the replies, errors and final store |
| RoleCacheRace.StoredByUpdate | pkg/connector/role.go:311-312 | How one caller's progress changes the number of callers that stored a page |
| RoleCacheRace.GoodLogStore | pkg/connector/role.go:311-312 | Storing a page on a possibly stale read keeps the bound on how often each page occurs |
| RoleCacheRace.InvStep | pkg/connector/role.go:292-316 | Every atomic step of every caller keeps the invariant |
| RoleCacheRace.RacedCache | pkg/connector/role.go:292-316 | In every reachable state a list is pages of the subscription from page 0 on, each at most as often as callers stored it, and its last page is the last one stored by some caller |
| RoleCacheRace.KeyNeverDisappears | pkg/connector/role.go:39-43 | A cached subscription stays cached in every run |
| RoleCacheRace.SoleFiller | pkg/connector/role.go:292-316 | With one filler among any number of callers the list is exactly the pages it stored, complete when it finished |
| CrossBuilder.SoleFillIsFill | pkg/connector/role.go:292-316 | The machine with one filler leaves the cache that `cacheRoleAssignments` leaves |
| RoleCacheRace.SettledEnd | pkg/connector/role.go:305-313 | When all fillers finished, the last page of the listing ends the list |
| RoleCacheRace.EndsAreKept | pkg/connector/role.go:305-313 | When all fillers finished and every append copied, the first and the last page are in the list |
| RoleCacheRace.MiddleDropped | pkg/connector/role.go:311-312 | A run of two finishing fillers that drops every page between, for every listing of at least three pages |
| RoleCacheRace.LostExactlyInTheMiddle | pkg/connector/role.go:292-316 | When every append copies, finishing fillers can lose an assignment exactly when it is on neither the first nor the last page |
| RoleCacheRace.MissedExactly | pkg/connector/role.go:114-119 | After `cacheRoleAssignments` succeeded, by a fill of its own or a hit, and no page failed, a caller's read can miss an assignment exactly when it is not on page 0 |
| SliceRace.InvStep | pkg/connector/role.go:292-316 | Every atomic step, appends in place included, keeps the invariant of arrays and slices |
| SliceRace.PageZeroSurvives | pkg/connector/role.go:311-312 | In every reachable state a list starts with the whole page 0 and holds only assignments of its subscription's listing; a caller that returned finds one |
| SliceRace.OnlyPageZero | pkg/connector/role.go:311-312 | A run of finishing callers that leaves nothing but copies of page 0, for every listing of at least two pages whose first is not empty |
| SliceRace.LostExactlyBehindPageZero | pkg/connector/role.go:292-316 | With appends in place, finishing callers can lose an assignment exactly when it is not on page 0 |
| ResourceGroupRoles.GetAllRoles | pkg/connector/helper.go:659-683 | All role names, or an error when a page fails |
| ResourceGroupRoles.List | pkg/connector/resource_group_role_assignment.go:33-85 | The nested pager loops compute the product of the whole listings, or the failure of the first page that fails in reading order |
| ResourceGroupRoles.ListedMeaning | pkg/connector/resource_group_role_assignment.go:36-59 | Resources come out exactly when no page read fails; a failure within a served subscription goes before a failing page of subscriptions |
| ResourceGroupRoles.FirstFailureMeaning | pkg/connector/resource_group_role_assignment.go:43-58 | The failure reported is that of the first subscription in which there is one |
| ResourceGroupRoles.TripleCount | pkg/connector/resource_group_role_assignment.go:63-79 | Each triple is listed as often as its subscription, group and role are, multiplied |
| ResourceGroupRoles.ListedInOrder | pkg/connector/resource_group_role_assignment.go:43-79 | The triples come in the order of subscriptions, groups and roles, against a reference from the front |
| ResourceGroupRoles.ResourceTexts | pkg/connector/resource_group_role_assignment.go:65-71 | The resource ID, its type, and the subscription as its parent |
| ResourceGroupRoles.OneResourcePerTriple | pkg/connector/resource_group_role_assignment.go:33-85 | When the listings of the listed subscriptions repeat nothing: one resource for each triple, no other, no two with one ID, and the ID reads back as the triple |
| ResourceGroupRoles.PageSplitIrrelevant | pkg/connector/resource_group_role_assignment.go:35-82 | The page split of the subscriptions' listing, and of the listings of listed subscriptions, does not matter |
| ResourceGroupRoles.ResourceGroupRoleBuilder.Grants | pkg/connector/resource_group_role_assignment.go:106-157 | The uncached page loop: the served pages' grants, an error, or a panic before it |
| ResourceGroupRoles.ScopeGrantsExactly | pkg/connector/resource_group_role_assignment.go:129-156 | From a complete listing what each assignment adds by its principal's kind; when a page fails never grants, but the failure, or a panic on an unknown kind served before it |
| ResourceGroupRoles.ResourceGroupRoleBuilder.Grant | pkg/connector/resource_group_role_assignment.go:159-240 | Error and new store |
| ResourceGroupRoles.ResourceGroupRoleBuilder.Revoke | pkg/connector/resource_group_role_assignment.go:242-305 | Error and new store |
| ResourceGroupRoles.ResourceGroupProvisioningCycle | test/grant-revoke.sh:18-49 | The scenario for a listed resource, at its resource group's scope, whatever other scopes its listing shows |
| ResourceGroupRoles.ReportedGrantRevocable | pkg/connector/resource_group_role_assignment.go:242-305 | What revoking a reported user grant of a resource comes to, as for a subscription's role |
| ResourceGroupRoles.Scenario | test/grant-revoke.sh:18-49 | From the scenario's premises: its calls on builder objects for a listed resource, with the replies, errors and final store |
| GraphClient.QueryMeaning | pkg/connector/client_graph.go:96-154 | `query` never answers `ErrNotFound`; it returns a value exactly for status 200, 201 or 204 with a body that decodes |
| Pagination.Bag.Unmarshal | vendor/github.com/conductorone/baton-sdk/pkg/pagination/pagination.go:129-146 | The bag holds the stack the token stands for, or is unchanged on a corrupt one |
| Pagination.Bag.Push | vendor/github.com/conductorone/baton-sdk/pkg/pagination/pagination.go:41-71 | Puts a state on top of the stack |
| Pagination.Bag.Pop | vendor/github.com/conductorone/baton-sdk/pkg/pagination/pagination.go:51-76 | Takes the top of the stack off, and nothing from an empty one |
| Pagination.Bag.NextToken | vendor/github.com/conductorone/baton-sdk/pkg/pagination/pagination.go:95-116 | Moves the top to the next link or pops it, and returns the stack's token |
| Pagination.TokenRoundTrip | vendor/github.com/conductorone/baton-sdk/pkg/pagination/pagination.go:129-163 | A stack survives the trip through its token |
| Pagination.StackAfter | vendor/github.com/conductorone/baton-sdk/pkg/pagination/pagination.go:95-116 | The stack after a page with and without a link, and the one that is opened |
| Pagination.ParsePageToken | pkg/connector/helper.go:102-117 | Opens the token's stack, or one state for the resource |
| GroupSync.GetGroupGrants | pkg/connector/helper.go:290-333 | The conversion of one page of memberships |
| GroupSync.MemberGrantsSucceed | pkg/connector/helper.go:291-332 | The conversion of memberships never fails |
| GroupSync.MemberGrantsByKind | pkg/connector/helper.go:291-332 | By the type Graph reports: users, groups, applications and managed identities add one grant each, with its ID, entitlement and principal, in order; nothing else adds one |
| GroupSync.GroupBuilder.Grants | pkg/connector/group.go:101-177 | One call: what it queries, returns and leaves for the next call |
| GroupSync.EndsStep | pkg/connector/group.go:141-176 | A call answered with a page contributes that page and continues with its link, or with what is below |
| GroupSync.RunChain | pkg/connector/group.go:141-176 | The run of a chain on top of any stack, then of the rest of the stack |
| GroupSync.FullRun | pkg/connector/group.go:101-177 | A run from the empty token ends after an exact number of calls; it visits the members chain, then the owners chain, each page once, each cut right after its first short page, whole conversions of what was visited |
| GroupSync.CutLosesNothing | pkg/connector/group.go:158-164 | No page of a chain is lost exactly when every page but the last has more than fifty entries |
| GroupSync.CutAtFifty | pkg/connector/group.go:158-164 | The cut is right after the first page of fifty entries or fewer |
| GroupSync.CompleteRun | pkg/connector/group.go:101-177 | Without short pages a sync reports all memberships of both listings, each by the kind of its member |
| GroupSync.BadResponseFails | pkg/connector/group.go:141-156 | A call succeeds exactly when Graph serves a page; every other response, 404 included, is an error |
| GroupSync.MissingGroupFails | pkg/connector/client_graph.go:119-143 | A 404 on the members listing fails the sync with its first call, whatever the owners listing is |
| GroupSync.GrantIdInjective | pkg/connector/helper.go:279-288 | A group grant's ID tells its group, relation and principal |
| GroupSync.SyncIdsDistinct | pkg/connector/helper.go:320-329 | The grants of the rosters of distinct groups have pairwise distinct IDs |
| GroupSync.RunIsRoster | pkg/connector/group.go:101-177 | What any number of calls return, whether or not the run is over and however the chains end, is the roster of just the pages they got to |
| GroupSync.ReturnedByKind | pkg/connector/group.go:101-177 | So what any number of calls return is, for each member on those pages, what its kind adds |
| GroupSync.RunReturns | pkg/connector/group.go:101-177 | When the run is over, these are its grants |
| GroupSync.RunIdsDistinct | pkg/connector/helper.go:279-329 | All grants returned for any list of distinct groups have pairwise distinct IDs, however the chains are paged, cut or broken off and after however many calls for each group the sync stops |
| GroupSync.RosterGrantForm | pkg/connector/helper.go:320-329 | Every group grant names the entitlement the group emits for the relation and a listed member of that relation |
| GroupSync.NestedGroupExpands | pkg/connector/helper.go:296-302 | A nested group expands to exactly the entitlement its own members grants carry |
| EntitlementIds.EntitlementId.MarshalString | pkg/connector/enterprise_applications.go:357-379 | The marshalled ID, or the error for an unknown type |
| EntitlementIds.EntitlementId.UnmarshalString | pkg/connector/enterprise_applications.go:381-395 | The receiver's new fields and the error, partial updates included |
| EntitlementIds.MarshalRoundTrip | pkg/connector/enterprise_applications.go:357-395 | Unmarshalling into a fresh value undoes marshalling up to the renaming of the type |
| EntitlementIds.UnmarshalExactly | pkg/connector/enterprise_applications.go:381-395 | Fields and error for an ID of any number of colon-free parts, on any receiver |
| EntitlementIds.MarshalFails | pkg/connector/enterprise_applications.go:357-379 | Exactly the types other than the two cannot be marshalled |
| EntitlementIds.MarshalInjective | pkg/connector/enterprise_applications.go:357-379 | Marshalling tells types, resources and app role IDs apart |
| EntitlementIds.GrantsIdIsMarshalled | pkg/connector/enterprise_applications.go:259-262 | The IDs `Grants` formats coincide with the marshalled ones, on every input |
| EnterpriseApplications.EnterpriseApplicationsBuilder.List | pkg/connector/enterprise_applications.go:47-88 | New cache and returned page, the failing conversion included |
| EnterpriseApplications.EnterpriseApplicationsBuilder.Entitlements | pkg/connector/enterprise_applications.go:90-184 | The emitted entitlements in order, or the panic |
| EnterpriseApplications.EnterpriseApplicationsBuilder.Grants | pkg/connector/enterprise_applications.go:187-341 | Both branches, their errors, and the panic |
| EnterpriseApplications.ListedIsCached | pkg/connector/enterprise_applications.go:66-87 | Over every history of `List` calls, Graph changing between them: returned means cached, equal when all succeed, keys are IDs, values the latest listed and owned |
| EnterpriseApplications.ListExactly | pkg/connector/enterprise_applications.go:47-88 | One call for any token: the page asked for, what is cached even when the conversion fails, what is returned, and the next token |
| EnterpriseApplications.FullListing | pkg/connector/enterprise_applications.go:47-88 | A run from the empty token asks for each page of the chain once, is over exactly with the last, returns the owned applications of all pages in order and leaves just these cached |
| EnterpriseApplications.PanicsExactly | pkg/connector/enterprise_applications.go:142-143 | When `Entitlements` and `Grants` dereference a missing entry, for every cache, application and token; on a cached application only the empty token and the prefix do it |
| EnterpriseApplications.ListedPanicsExactly | pkg/connector/enterprise_applications.go:204-233 | After every history of `List` calls, a returned application panics exactly from the empty token when its trimmed ID is not cached; when all calls succeeded, when no application was returned under that ID |
| EnterpriseApplications.PrefixedAppPanics | pkg/connector/enterprise_applications.go:206 | There is a listed application for which it does |
| EnterpriseApplications.TrimmedExactly | pkg/connector/enterprise_applications.go:206 | One prefix is dropped, and no other ID is changed |
| EnterpriseApplications.FreshRunSkipsOwners | pkg/connector/enterprise_applications.go:204-272 | A run from the empty token reports the grants the cached assignments stand for, by their principals' types, and never the owners |
| EnterpriseApplications.GrantsByState | pkg/connector/enterprise_applications.go:231-340 | What a resumed call replies by the state on top: the cached assignments or the panic, a page of owners, or an error |
| EnterpriseApplications.OwnersPage | pkg/connector/enterprise_applications.go:273-337 | A page of owners, its errors and the next token, by Graph's response |
| EnterpriseApplications.OwnersByKind | pkg/connector/enterprise_applications.go:294-335 | What each owner adds by its type, in order; an owner of another type fails them all |
| EnterpriseApplications.EntitlementsExactly | pkg/connector/enterprise_applications.go:90-181 | The owners entitlement, the default assignment, then those of the roles |
| EnterpriseApplications.GrantNamesEntitlement | pkg/connector/enterprise_applications.go:143-180 | An assignment grant names an emitted entitlement exactly for the default role or a cached role users may hold |
| EnterpriseApplications.RoleEntriesInOrder | pkg/connector/enterprise_applications.go:143-181 | One entitlement for each role users may hold, in order, with its ID and slug |
| EnterpriseApplications.OwnersRun | pkg/connector/enterprise_applications.go:273-337 | Resumed from an owners token, a run converts the whole uncut owners chain, errors included |
| EnterpriseApplications.OwnersFailExactly | pkg/connector/enterprise_applications.go:294-335 | The owners fail exactly when one is neither a user nor a service principal |
| CrossBuilder.SamePrincipalExceptGroups | pkg/connector/helper.go:685-710 | Role and group syncs report a principal alike, except groups |
| CrossBuilder.AppGroupExpands | pkg/connector/enterprise_applications.go:240-248 | A group's app assignment expands to the entitlement of its members grants |
| CrossBuilder.AppGrantReadBack | pkg/connector/enterprise_applications.go:397-417 | A reported app grant, of an assignment or an owner, is read back as the relation, application and role it was made for |

## Left out

- HTTP below the status and the decoded body, tokens, URL building, JSON decoding, logging and connector construction: foreign libraries and I/O.
- The `List` and `Entitlements` of roles, groups and resource groups, and all of tenants, subscriptions, managed identities, plain resource groups and users: single loops or straight-line code that would only add easy members.
- Group and enterprise `Grant` and `Revoke` beyond reading the entitlement ID: each is one HTTP call after the checks.
- Display names, descriptions, profiles and the purpose field of resources and entitlements: no modelled operation reads them.
- Infinite or cyclic page chains: a run is stated for finite chains.
- Page tokens made by hand whose current state is null, and nil pointers inside responses: tokens come from the bag, responses are well formed.
- The read of the cache that `Grants` makes after a fill is not a step of the concurrent machines: it is one more atomic read, and `MissedExactly` is about all states in which it can be made.
- RoleCacheRace.EndsAreKept: holds of appends that copy; `SliceRace.OnlyPageZero` shows that it fails with appends in place.
- RoleCacheRace.LostExactlyInTheMiddle: holds of appends that copy; `SliceRace.LostExactlyBehindPageZero` is the statement for appends in place.
- SliceRace.LostExactlyBehindPageZero: for a page 0 that is not empty, and for some capacities the language permits; the growth rule of one Go release, and writes of one append interleaved with another's, are not modelled.
