/** The role builder: `Grants` answers from a per-subscription cache of role assignments
    that is filled page by page; `Grant` and `Revoke` act on the remote store. */
module Role {
  import opened Wrappers
  import opened Text
  import opened Resources
  import opened Identifiers
  import opened Paging
  import opened Directory
  import opened Assignments
  import opened Provisioning
  import opened Revocation

  type Cache = map<string, seq<RoleAssignment>>

  /** The cache after `cacheRoleAssignments`: a present list is kept, an absent one becomes
      the pages served, unless none was. */
  function Filled(cache: Cache, subscription: string, listing: Listing<RoleAssignment>): Cache {
    if subscription in cache || listing.Served() == [] then cache
    else cache[subscription := Flatten(listing.Served())]
  }

  predicate FillFails(cache: Cache, subscription: string, listing: Listing<RoleAssignment>) {
    subscription !in cache && !listing.Complete()
  }

  function Cached(cache: Cache, subscription: string): seq<RoleAssignment> {
    if subscription in cache then cache[subscription] else []
  }

  /** `Grants`: the cache after it, and its reply. */
  function GrantsEffect(cache: Cache, resource: ResourceId, listing: Listing<RoleAssignment>, graph: Graph)
    : (Cache, GrantsReply)
  {
    var (subscription, role) := RoleParts(resource.resource);
    var after := Filled(cache, subscription, listing);
    (after,
     if FillFails(cache, subscription, listing) then Failed(RemoteFailure)
     else Report(Cached(after, subscription), RoleDefinitionID(subscription, role), resource, graph))
  }

  /** The cache when a fill of an absent list has stored the first `n` pages. */
  function Filling(cache: Cache, subscription: string, listing: Listing<RoleAssignment>, n: nat): Cache
    requires n <= |listing.pages|
  {
    if n == 0 then cache else cache[subscription := Flatten(listing.pages[..n])]
  }

  lemma FillNext(cache: Cache, subscription: string, listing: Listing<RoleAssignment>, n: nat)
    requires subscription !in cache && n < |listing.pages|
    ensures Filling(cache, subscription, listing, n + 1) ==
            Filling(cache, subscription, listing, n)[subscription :=
              Cached(Filling(cache, subscription, listing, n), subscription) + listing.pages[n]]
  {
    FlattenNext(listing.pages, n);
    assert listing.pages[..0] == [];
  }

  lemma FillEnd(cache: Cache, subscription: string, listing: Listing<RoleAssignment>)
    requires subscription !in cache
    ensures Filled(cache, subscription, listing) == Filling(cache, subscription, listing, |listing.Served()|)
  {
    assert listing.pages[..|listing.Served()|] == listing.Served();
  }

  class RoleBuilder {
    const store: RoleAssignmentStore
    var cache: Cache

    constructor (store: RoleAssignmentStore)
      ensures this.store == store && cache == map[]
    {
      this.store := store;
      this.cache := map[];
    }

    method CacheGet(id: string) returns (value: seq<RoleAssignment>, ok: bool)
      ensures ok == (id in cache) && value == Cached(cache, id)
    {
      ok := id in cache;
      value := if ok then cache[id] else [];
    }

    method CacheSet(id: string, value: seq<RoleAssignment>)
      modifies this
      ensures cache == old(cache)[id := value]
    {
      cache := cache[id := value];
    }

    method CacheRoleAssignments(subscription: string, listing: Listing<RoleAssignment>) returns (err: Option<Error>)
      modifies this
      ensures cache == Filled(old(cache), subscription, listing)
      ensures err == if FillFails(old(cache), subscription, listing) then Some(RemoteFailure) else None
    {
      var _, hit := CacheGet(subscription);
      if hit {
        return None;
      }
      FillEnd(cache, subscription, listing);
      var next := 0;
      while next < |listing.pages|
        invariant 0 <= next <= |listing.Served()|
        invariant cache == Filling(old(cache), subscription, listing, next)
      {
        if next == listing.failAt {
          return Some(RemoteFailure);
        }
        var page := listing.pages[next];
        FillNext(old(cache), subscription, listing, next);
        var assignments, _ := CacheGet(subscription);
        CacheSet(subscription, assignments + page);
        next := next + 1;
      }
      return None;
    }

    method Grants(resource: ResourceId, listing: Listing<RoleAssignment>, graph: Graph) returns (r: GrantsReply)
      modifies this
      ensures (cache, r) == GrantsEffect(old(cache), resource, listing, graph)
    {
      var subscriptionID, roleID := "", "";
      var arr := Split(resource.resource, ':');
      if |arr| == 2 {
        subscriptionID := arr[1];
        roleID := arr[0];
      }
      var err := CacheRoleAssignments(subscriptionID, listing);
      if err.Some? {
        return Failed(err.value);
      }
      var assignments, _ := CacheGet(subscriptionID);
      r := ReportGrants(assignments, RoleDefinitionID(subscriptionID, roleID), resource, graph);
    }

    method Grant(principal: ResourceId, entitlement: Entitlement, name: string, fault: Fault) returns (err: Option<Error>)
      modifies store
      ensures (store.entries, err) ==
              GrantEffect(old(store.entries), RoleTarget(entitlement.resource.resource), principal, name, fault)
    {
      if principal.resourceType != USER {
        return Some(UsersOnly);
      }
      var entitlementResource := entitlement.resource.resource;
      if ':' !in entitlementResource {
        return Some(InvalidRoleID);
      }
      var entitlementIDs := Split(entitlementResource, ':');
      if |entitlementIDs| != 2 {
        return Some(InvalidRoleID);
      }
      var roleId, subscriptionId := entitlementIDs[0], entitlementIDs[1];
      var scope := SubscriptionScope(subscriptionId);
      var parameters := Binding(principal.resource, RoleDefinitionID(subscriptionId, roleId));
      var reply := store.Create(scope, name, parameters, fault);
      err := if reply.TransportError? then Some(RemoteFailure) else None;
    }

    method Revoke(grant: Grant, listing: Listing<RoleAssignment>, fault: Fault) returns (err: Option<Error>)
      modifies store
      ensures (store.entries, err) ==
              RevokeEffect(old(store.entries), RoleTarget(grant.entitlement.resource.resource), grant.principal, listing, fault)
    {
      if grant.principal.resourceType != USER {
        return Some(UsersOnly);
      }
      var entitlementResource := grant.entitlement.resource.resource;
      if ':' !in entitlementResource {
        return Some(InvalidRoleID);
      }
      var entitlementIDs := Split(entitlementResource, ':');
      if |entitlementIDs| != 2 {
        return Some(InvalidRoleID);
      }
      var roleID, subscriptionId := entitlementIDs[0], entitlementIDs[1];
      var scope := SubscriptionScope(subscriptionId);
      var roleAssignmentName, _ := GetAssignmentID(listing, Binding(grant.principal.resource, RoleDefinitionID(subscriptionId, roleID)));
      if roleAssignmentName.Err? {
        return Some(roleAssignmentName.error);
      }
      var reply := store.Delete(scope, roleAssignmentName.value, fault);
      if reply.DeleteFailed? {
        return Some(RemoteFailure);
      }
      if reply.NothingDeleted? {
        return Some(NotDeleted);
      }
      return None;
    }
  }

  // ---- sequential histories of one builder ----

  datatype Call =
    | GrantsCall(resource: ResourceId, listing: Listing<RoleAssignment>)
    | ProvisionCall(op: Op)

  datatype State = State(cache: Cache, entries: Entries)

  ghost function Next(s: State, call: Call, graph: Graph): State {
    match call
    case GrantsCall(resource, listing) => s.(cache := GrantsEffect(s.cache, resource, listing, graph).0)
    case ProvisionCall(op) => s.(entries := Provision(s.entries, op).0)
  }

  ghost function Run(s: State, calls: seq<Call>, graph: Graph): State
    decreases |calls|
  {
    if calls == [] then s else Run(Next(s, calls[0], graph), calls[1..], graph)
  }

  /** The first `Grants` call of the history on the subscription that is served a page. */
  ghost function FirstFill(calls: seq<Call>, subscription: string): Option<Listing<RoleAssignment>> {
    if calls == [] then None
    else if calls[0].GrantsCall? && RoleParts(calls[0].resource.resource).0 == subscription
            && calls[0].listing.Served() != [] then Some(calls[0].listing)
    else FirstFill(calls[1..], subscription)
  }

  /** Once present, a subscription's list is frozen, whatever calls follow. */
  lemma {:induction false} CacheFrozen(s: State, calls: seq<Call>, subscription: string, graph: Graph)
    requires subscription in s.cache
    ensures subscription in Run(s, calls, graph).cache
            && Run(s, calls, graph).cache[subscription] == s.cache[subscription]
    decreases |calls|
  {
    if calls != [] {
      CacheFrozen(Next(s, calls[0], graph), calls[1..], subscription, graph);
    }
  }

  /** After any history that starts with an empty cache, a subscription's list is absent
      exactly when no fill was served a page, and otherwise it is the pages of the first
      fill that was: the whole listing if no page of that fill failed, else the part
      before the failure. */
  lemma {:induction false} CacheOfHistory(s: State, calls: seq<Call>, subscription: string, graph: Graph)
    requires subscription !in s.cache
    ensures var cache, first := Run(s, calls, graph).cache, FirstFill(calls, subscription);
            && (subscription in cache <==> first.Some?)
            && (first.Some? ==> cache[subscription] == Flatten(first.value.Served()))
            && (first.Some? && first.value.Complete() ==> cache[subscription] == first.value.All())
    decreases |calls|
  {
    if calls != [] {
      var next := Next(s, calls[0], graph);
      if subscription in next.cache {
        CacheFrozen(next, calls[1..], subscription, graph);
      } else {
        CacheOfHistory(next, calls[1..], subscription, graph);
      }
    }
  }

  /** What `Grants` reports after any history: with the list present, it never fails and
      reports the first fill's pages, whatever the listing would serve now. Grants and
      revokes of the history, which change the store, do not show. */
  lemma GrantsAfterHistory(entries: Entries, calls: seq<Call>, resource: ResourceId, listing: Listing<RoleAssignment>, graph: Graph)
    ensures var (subscription, role) := RoleParts(resource.resource);
            var first := FirstFill(calls, subscription);
            var reply := GrantsEffect(Run(State(map[], entries), calls, graph).cache, resource, listing, graph).1;
            if first.Some? then
              reply == Report(Flatten(first.value.Served()), RoleDefinitionID(subscription, role), resource, graph)
            else if listing.Complete() then
              reply == Report(listing.All(), RoleDefinitionID(subscription, role), resource, graph)
            else reply == Failed(RemoteFailure)
  {
    CacheOfHistory(State(map[], entries), calls, RoleParts(resource.resource).0, graph);
  }

  /** The same, by the kinds of the principals: what the assignments of the first fill that was
      served a page add, or of this call's listing when no fill was; a failing page of this
      call's listing then fails the call. */
  lemma GrantsAnswerHistory(entries: Entries, calls: seq<Call>, resource: ResourceId, listing: Listing<RoleAssignment>, graph: Graph)
    ensures var (subscription, role) := RoleParts(resource.resource);
            var first := FirstFill(calls, subscription);
            var reply := GrantsEffect(Run(State(map[], entries), calls, graph).cache, resource, listing, graph).1;
            if first == None && listing.failAt < |listing.pages| then reply == Failed(RemoteFailure)
            else Answers(reply, if first == None then listing.All() else Flatten(first.value.Served()),
                         RoleDefinitionID(subscription, role), resource, graph)
  {
    var (subscription, role) := RoleParts(resource.resource);
    var first := FirstFill(calls, subscription);
    GrantsAfterHistory(entries, calls, resource, listing, graph);
    ReportAnswers(if first == None then listing.All() else Flatten(first.value.Served()),
                  RoleDefinitionID(subscription, role), resource, graph);
  }

  /** A fill that fails after its first page returns an error, and every later `Grants`
      on the subscription succeeds from the pages it left, even from a complete listing. */
  lemma PartialFillIsServed(entries: Entries, resource: ResourceId, failing: Listing<RoleAssignment>,
                            calls: seq<Call>, listing: Listing<RoleAssignment>, graph: Graph)
    requires 1 <= failing.failAt < |failing.pages|
    ensures var (subscription, role) := RoleParts(resource.resource);
            var start := State(map[], entries);
            var failed := GrantsCall(resource, failing);
            && GrantsEffect(map[], resource, failing, graph).1 == Failed(RemoteFailure)
            && GrantsEffect(Run(start, [failed] + calls, graph).cache, resource, listing, graph).1 ==
               Report(Flatten(failing.pages[..failing.failAt]), RoleDefinitionID(subscription, role), resource, graph)
  {
    var failed := GrantsCall(resource, failing);
    assert ([failed] + calls)[0] == failed;
    assert FirstFill([failed] + calls, RoleParts(resource.resource).0) == Some(failing);
    GrantsAfterHistory(entries, [failed] + calls, resource, listing, graph);
  }

  // ---- the cache against the uncached listing, over all roles ----

  lemma {:induction false} SelectAgree(list: seq<RoleAssignment>, p: RoleAssignment -> bool, q: RoleAssignment -> bool)
    requires forall a | a in list :: p(a) == q(a)
    ensures Select(list, p) == Select(list, q)
  {
    if list != [] {
      SelectAgree(list[1..], p, q);
    }
  }

  /** Selecting by two conditions that exclude each other is selecting by either, then joining. */
  lemma {:induction false} SelectEither(list: seq<RoleAssignment>, p: RoleAssignment -> bool, q: RoleAssignment -> bool)
    requires forall a | a in list :: !(p(a) && q(a))
    ensures multiset(Select(list, a => p(a) || q(a))) == multiset(Select(list, p)) + multiset(Select(list, q))
  {
    if list != [] {
      SelectEither(list[1..], p, q);
      assert list == [list[0]] + list[1..];
    }
  }

  /** The assignments of a cached list that `Grants` reports on one role. */
  function OfRole(list: seq<RoleAssignment>, subscription: string, role: string, graph: Graph): seq<RoleAssignment> {
    Select(list, a => Matches(a, RoleDefinitionID(subscription, role), graph))
  }

  function OfRoles(list: seq<RoleAssignment>, subscription: string, roles: seq<string>, graph: Graph): seq<RoleAssignment> {
    if roles == [] then []
    else OfRole(list, subscription, roles[0], graph) + OfRoles(list, subscription, roles[1..], graph)
  }

  /** The assignment is of one of the roles and its principal resolves. */
  predicate OfSomeRole(a: RoleAssignment, subscription: string, roles: seq<string>, graph: Graph) {
    PrincipalType(graph, a.principalID).Ok? && exists i :: 0 <= i < |roles| && a.roleDefinitionID == RoleDefinitionID(subscription, roles[i])
  }

  /** An assignment of one role is not of another, and is of some role when it is of one of them. */
  lemma RolesApart(a: RoleAssignment, subscription: string, roles: seq<string>, graph: Graph)
    requires roles != [] && Distinct(roles)
    ensures var first := Matches(a, RoleDefinitionID(subscription, roles[0]), graph);
            var later := OfSomeRole(a, subscription, roles[1..], graph);
            !(first && later) && (OfSomeRole(a, subscription, roles, graph) <==> first || later)
  {
    var rest := roles[1..];
    if i :| 0 <= i < |rest| && a.roleDefinitionID == RoleDefinitionID(subscription, rest[i]) {
      assert rest[i] == roles[i + 1];
      RoleDefinitionInjective(subscription, roles[0], rest[i]);
    }
    if i :| 0 < i < |roles| && a.roleDefinitionID == RoleDefinitionID(subscription, roles[i]) {
      assert roles[i] == rest[i - 1];
    }
  }

  lemma SelectRoles(list: seq<RoleAssignment>, subscription: string, roles: seq<string>, graph: Graph)
    requires roles != [] && Distinct(roles)
    ensures multiset(Select(list, a => OfSomeRole(a, subscription, roles, graph)))
         == multiset(OfRole(list, subscription, roles[0], graph))
            + multiset(Select(list, a => OfSomeRole(a, subscription, roles[1..], graph)))
  {
    var p := a => Matches(a, RoleDefinitionID(subscription, roles[0]), graph);
    var q := a => OfSomeRole(a, subscription, roles[1..], graph);
    var r := a => OfSomeRole(a, subscription, roles, graph);
    forall a ensures !(p(a) && q(a)) && (r(a) <==> p(a) || q(a)) {
      RolesApart(a, subscription, roles, graph);
    }
    SelectEither(list, p, q);
    SelectAgree(list, a => p(a) || q(a), r);
  }

  /** Over all distinct roles of a subscription, the assignments of one of them whose
      principal resolves are selected exactly once each. */
  lemma {:induction false} EachAssignmentOnce(list: seq<RoleAssignment>, subscription: string, roles: seq<string>, graph: Graph)
    requires Distinct(roles)
    ensures multiset(OfRoles(list, subscription, roles, graph))
         == multiset(Select(list, a => OfSomeRole(a, subscription, roles, graph)))
  {
    if roles == [] {
      SelectNone(list, a => OfSomeRole(a, subscription, roles, graph));
    } else {
      assert forall i | 0 <= i < |roles[1..]| :: roles[1..][i] == roles[i + 1];
      EachAssignmentOnce(list, subscription, roles[1..], graph);
      SelectRoles(list, subscription, roles, graph);
    }
  }

  /** After a clean fill, the grants `Grants` reports on a role are the uncached listing's
      assignments of that role, in order. */
  lemma CachedIsListing(entries: Entries, calls: seq<Call>, subscription: string, role: string, resource: ResourceId,
                        listing: Listing<RoleAssignment>, graph: Graph)
    requires RoleParts(resource.resource) == (subscription, role)
    requires FirstFill(calls, subscription).Some? && FirstFill(calls, subscription).value.Complete()
    ensures var reply := GrantsEffect(Run(State(map[], entries), calls, graph).cache, resource, listing, graph).1;
            var selected := OfRole(FirstFill(calls, subscription).value.All(), subscription, role, graph);
            reply.Reported? ==>
              && |reply.grants| == |selected|
              && forall i | 0 <= i < |selected| ::
                   && Principal(graph, selected[i]).Some? && Principal(graph, selected[i]).value.Some?
                   && reply.grants[i] == NewGrant(resource, ASSIGNED, Principal(graph, selected[i]).value.value)
    ensures var reply := GrantsEffect(Run(State(map[], entries), calls, graph).cache, resource, listing, graph).1;
            reply.Reported? <==> forall a | a in FirstFill(calls, subscription).value.All() ::
                                   !Unmapped(a, RoleDefinitionID(subscription, role), graph)
  {
    GrantsAfterHistory(entries, calls, resource, listing, graph);
    ReportIsFilter(FirstFill(calls, subscription).value.All(), RoleDefinitionID(subscription, role), resource, graph);
  }

  /** The grant an assignment stands for, taken alone: on the role its definition names, to
      the principal it resolves to. */
  function Alone(a: RoleAssignment, graph: Graph): seq<Grant> {
    match GetRoleId(a.roleDefinitionID)
    case None => []
    case Some(id) =>
      match Principal(graph, a)
      case None => []
      case Some(principal) =>
        if principal.None? then [] else [NewGrant(ResourceId(ROLE, id), ASSIGNED, principal.value)]
  }

  function AllAlone(list: seq<RoleAssignment>, graph: Graph): seq<Grant> {
    if list == [] then [] else Alone(list[0], graph) + AllAlone(list[1..], graph)
  }

  lemma {:induction false} AllAloneConcat(a: seq<RoleAssignment>, b: seq<RoleAssignment>, graph: Graph)
    ensures AllAlone(a + b, graph) == AllAlone(a, graph) + AllAlone(b, graph)
  {
    if a == [] {
      assert a + b == b;
    } else {
      assert (a + b)[0] == a[0] && (a + b)[1..] == a[1..] + b;
      AllAloneConcat(a[1..], b, graph);
      assert Alone(a[0], graph) + (AllAlone(a[1..], graph) + AllAlone(b, graph))
          == (Alone(a[0], graph) + AllAlone(a[1..], graph)) + AllAlone(b, graph);
    }
  }

  lemma AllAloneAt(front: seq<RoleAssignment>, x: RoleAssignment, back: seq<RoleAssignment>, graph: Graph)
    ensures multiset(AllAlone(front + ([x] + back), graph)) == multiset(Alone(x, graph)) + multiset(AllAlone(front + back, graph))
  {
    AllAloneConcat(front, [x] + back, graph);
    AllAloneConcat(front, back, graph);
    assert ([x] + back)[0] == x && ([x] + back)[1..] == back;
  }

  lemma MultisetAt(a: seq<RoleAssignment>, front: seq<RoleAssignment>, x: RoleAssignment, back: seq<RoleAssignment>)
    requires multiset([x] + a) == multiset(front + ([x] + back))
    ensures multiset(a) == multiset(front + back)
  {
    assert multiset(a) == multiset([x] + a) - multiset{x};
    assert multiset(front + back) == multiset(front + ([x] + back)) - multiset{x};
  }

  /** Lists of the same assignments stand for the same grants, in whatever order. */
  lemma {:induction false} AllAlonePermuted(a: seq<RoleAssignment>, b: seq<RoleAssignment>, graph: Graph)
    requires multiset(a) == multiset(b)
    ensures multiset(AllAlone(a, graph)) == multiset(AllAlone(b, graph))
  {
    if a == [] {
      assert |b| == |multiset(b)| == 0;
    } else {
      var x := a[0];
      assert x in multiset(b);
      var i :| 0 <= i < |b| && b[i] == x;
      var front, back := b[..i], b[i + 1..];
      assert a == [x] + a[1..] && b == front + ([x] + back);
      MultisetAt(a[1..], front, x, back);
      AllAlonePermuted(a[1..], front + back, graph);
      AllAloneAt(front, x, back, graph);
    }
  }

  lemma OneIsAlone(a: RoleAssignment, subscription: string, role: string, graph: Graph)
    requires !Unmapped(a, RoleDefinitionID(subscription, role), graph)
    ensures ReportOne(a, RoleDefinitionID(subscription, role), ResourceId(ROLE, RoleResource(subscription, role)), graph)
         == Reported(AllAlone(Select([a], x => Matches(x, RoleDefinitionID(subscription, role), graph)), graph))
  {
    RoleIdOfDefinition(subscription, role);
    var p := x => Matches(x, RoleDefinitionID(subscription, role), graph);
    assert Select([a], p) == (if p(a) then [a] else []) + Select([a][1..], p);
    if p(a) {
      assert Select([a], p) == [a];
      assert AllAlone([a], graph) == Alone(a, graph) + AllAlone([a][1..], graph);
    } else {
      assert Select([a], p) == [];
    }
  }

  lemma {:induction false} SelectConcat(a: seq<RoleAssignment>, b: seq<RoleAssignment>, p: RoleAssignment -> bool)
    ensures Select(a + b, p) == Select(a, p) + Select(b, p)
  {
    if a == [] {
      assert a + b == b;
    } else {
      var one := if p(a[0]) then [a[0]] else [];
      assert (a + b)[0] == a[0] && (a + b)[1..] == a[1..] + b;
      SelectConcat(a[1..], b, p);
      assert one + (Select(a[1..], p) + Select(b, p)) == (one + Select(a[1..], p)) + Select(b, p);
    }
  }

  /** On a role's own resource, `Grants` reports what the assignments of the role stand for. */
  lemma {:induction false} ReportIsAlone(list: seq<RoleAssignment>, subscription: string, role: string, graph: Graph)
    requires forall a | a in list :: !Unmapped(a, RoleDefinitionID(subscription, role), graph)
    ensures Report(list, RoleDefinitionID(subscription, role), ResourceId(ROLE, RoleResource(subscription, role)), graph)
         == Reported(AllAlone(OfRole(list, subscription, role, graph), graph))
  {
    if list != [] {
      var first, rest := [list[0]], list[1..];
      assert list == first + rest;
      ReportIsAlone(rest, subscription, role, graph);
      OneIsAlone(list[0], subscription, role, graph);
      SelectConcat(first, rest, a => Matches(a, RoleDefinitionID(subscription, role), graph));
      AllAloneConcat(OfRole(first, subscription, role, graph), OfRole(rest, subscription, role, graph), graph);
    }
  }

  /** The replies of `Grants` on the resources of the roles, one call for each, joined. */
  function RoleReplies(cache: Cache, subscription: string, roles: seq<string>,
                       listing: string -> Listing<RoleAssignment>, graph: Graph): GrantsReply {
    if roles == [] then Reported([])
    else Followed(GrantsEffect(cache, ResourceId(ROLE, RoleResource(subscription, roles[0])), listing(roles[0]), graph).1,
                  RoleReplies(cache, subscription, roles[1..], listing, graph))
  }

  lemma {:induction false} RepliesAreAlone(cache: Cache, subscription: string, roles: seq<string>,
                                           listing: string -> Listing<RoleAssignment>, graph: Graph)
    requires subscription in cache && Plain(subscription) && forall i | 0 <= i < |roles| :: Plain(roles[i])
    requires AllMapped(cache[subscription], subscription, roles, graph)
    ensures RoleReplies(cache, subscription, roles, listing, graph) ==
            Reported(AllAlone(OfRoles(cache[subscription], subscription, roles, graph), graph))
  {
    if roles != [] {
      assert forall i | 0 <= i < |roles[1..]| :: roles[1..][i] == roles[i + 1];
      RepliesAreAlone(cache, subscription, roles[1..], listing, graph);
      RoleIdRoundTrip(subscription, roles[0]);
      ReportIsAlone(cache[subscription], subscription, roles[0], graph);
      AllAloneConcat(OfRole(cache[subscription], subscription, roles[0], graph),
                     OfRoles(cache[subscription], subscription, roles[1..], graph), graph);
    }
  }

  /** None of the assignments stops the replies on the roles with a panic. */
  predicate AllMapped(list: seq<RoleAssignment>, subscription: string, roles: seq<string>, graph: Graph) {
    forall a, i | a in list && 0 <= i < |roles| :: !Unmapped(a, RoleDefinitionID(subscription, roles[i]), graph)
  }

  lemma {:induction false} RepliesMapped(cache: Cache, subscription: string, roles: seq<string>,
                                         listing: string -> Listing<RoleAssignment>, graph: Graph)
    requires subscription in cache && Plain(subscription) && forall i | 0 <= i < |roles| :: Plain(roles[i])
    ensures RoleReplies(cache, subscription, roles, listing, graph).Reported? ==>
              AllMapped(cache[subscription], subscription, roles, graph)
    ensures !RoleReplies(cache, subscription, roles, listing, graph).Failed?
  {
    if roles != [] {
      var rest := roles[1..];
      assert forall i | 0 <= i < |rest| :: rest[i] == roles[i + 1];
      RepliesMapped(cache, subscription, rest, listing, graph);
      RoleIdRoundTrip(subscription, roles[0]);
      ReportIsFilter(cache[subscription], RoleDefinitionID(subscription, roles[0]),
                     ResourceId(ROLE, RoleResource(subscription, roles[0])), graph);
      forall a, i | RoleReplies(cache, subscription, roles, listing, graph).Reported? && a in cache[subscription] && 0 <= i < |roles|
        ensures !Unmapped(a, RoleDefinitionID(subscription, roles[i]), graph)
      {
        if i > 0 {
          assert !Unmapped(a, RoleDefinitionID(subscription, rest[i - 1]), graph);
        }
      }
    }
  }

  /** After any history whose first fill of the subscription was clean, the replies of
      `Grants` on all its distinct roles together hold exactly one grant for each listed
      assignment of one of the roles whose principal resolves, and no other grant. They
      panic exactly when some listed assignment of a role resolves to an unknown kind. */
  lemma {:induction false} EachAssignmentReportedOnce(entries: Entries, calls: seq<Call>, subscription: string, roles: seq<string>,
                                                      listing: string -> Listing<RoleAssignment>, graph: Graph)
    requires FirstFill(calls, subscription).Some? && FirstFill(calls, subscription).value.Complete()
    requires Distinct(roles) && Plain(subscription) && forall i | 0 <= i < |roles| :: Plain(roles[i])
    ensures var replies := RoleReplies(Run(State(map[], entries), calls, graph).cache, subscription, roles, listing, graph);
            var list := FirstFill(calls, subscription).value.All();
            var wanted := Select(list, a => OfSomeRole(a, subscription, roles, graph));
            && (replies.Panicked? <==> !AllMapped(list, subscription, roles, graph))
            && !replies.Failed?
            && (replies.Reported? ==>
                  multiset(replies.grants) == multiset(AllAlone(wanted, graph)) && |replies.grants| == |wanted|)
  {
    var list := FirstFill(calls, subscription).value.All();
    var cache := Run(State(map[], entries), calls, graph).cache;
    CacheOfHistory(State(map[], entries), calls, subscription, graph);
    RepliesMapped(cache, subscription, roles, listing, graph);
    if AllMapped(list, subscription, roles, graph) {
      RepliesAreAlone(cache, subscription, roles, listing, graph);
      OnceInAll(list, subscription, roles, graph);
    }
  }

  lemma OnceInAll(list: seq<RoleAssignment>, subscription: string, roles: seq<string>, graph: Graph)
    requires Distinct(roles) && AllMapped(list, subscription, roles, graph)
    ensures var wanted := Select(list, a => OfSomeRole(a, subscription, roles, graph));
            var grants := AllAlone(OfRoles(list, subscription, roles, graph), graph);
            multiset(grants) == multiset(AllAlone(wanted, graph)) && |grants| == |wanted|
  {
    var wanted := Select(list, a => OfSomeRole(a, subscription, roles, graph));
    var grants := AllAlone(OfRoles(list, subscription, roles, graph), graph);
    EachAssignmentOnce(list, subscription, roles, graph);
    AllAlonePermuted(OfRoles(list, subscription, roles, graph), wanted, graph);
    OneEach(list, subscription, roles, graph);
    assert |multiset(grants)| == |grants| && |multiset(AllAlone(wanted, graph))| == |AllAlone(wanted, graph)|;
  }

  lemma {:induction false} SelectMembers(list: seq<RoleAssignment>, p: RoleAssignment -> bool)
    ensures forall a | a in Select(list, p) :: a in list && p(a)
  {
    if list != [] {
      SelectMembers(list[1..], p);
    }
  }

  lemma {:induction false} EachAlone(list: seq<RoleAssignment>, graph: Graph)
    requires forall a | a in list :: |Alone(a, graph)| == 1
    ensures |AllAlone(list, graph)| == |list|
    ensures forall i | 0 <= i < |list| :: AllAlone(list, graph)[i] == Alone(list[i], graph)[0]
  {
    if list != [] {
      EachAlone(list[1..], graph);
      var one := Alone(list[0], graph);
      assert |one| == 1 && AllAlone(list, graph) == one + AllAlone(list[1..], graph);
    }
  }

  /** The grant of an assignment of one of the roles. */
  lemma WantedAlone(a: RoleAssignment, subscription: string, role: string, graph: Graph)
    requires a.roleDefinitionID == RoleDefinitionID(subscription, role)
    requires Principal(graph, a).Some? && Principal(graph, a).value.Some?
    ensures Alone(a, graph) == [NewGrant(ResourceId(ROLE, RoleResource(subscription, role)), ASSIGNED, Principal(graph, a).value.value)]
  {
    RoleIdOfDefinition(subscription, role);
  }

  /** Each selected assignment stands for one grant. */
  lemma OneEach(list: seq<RoleAssignment>, subscription: string, roles: seq<string>, graph: Graph)
    requires AllMapped(list, subscription, roles, graph)
    ensures var wanted := Select(list, a => OfSomeRole(a, subscription, roles, graph));
            && |AllAlone(wanted, graph)| == |wanted|
            && forall i | 0 <= i < |wanted| ::
                 |Alone(wanted[i], graph)| == 1 && AllAlone(wanted, graph)[i] == Alone(wanted[i], graph)[0]
  {
    var wanted := Select(list, a => OfSomeRole(a, subscription, roles, graph));
    forall a | a in wanted ensures |Alone(a, graph)| == 1 {
      var role := WantedRole(list, subscription, roles, graph, a);
      WantedAlone(a, subscription, role, graph);
    }
    EachAlone(wanted, graph);
  }

  // ---- the IDs of a sync's grants ----

  /** The same principal has the same role, at whatever scopes. */
  predicate SameHolding(a: RoleAssignment, a': RoleAssignment) {
    a.principalID == a'.principalID && a.roleDefinitionID == a'.roleDefinitionID
  }

  lemma ResourceNamed(kind: string, id: string)
    requires PrincipalResource(kind, id).Some? && ':' !in id
    ensures PrincipalResource(kind, id).value.resource == id && PlainPrincipal(PrincipalResource(kind, id).value)
  {
  }

  /** A resolved principal is named by the assignment's own principal ID. */
  lemma PrincipalNamed(a: RoleAssignment, graph: Graph)
    requires Principal(graph, a).Some? && Principal(graph, a).value.Some? && ':' !in a.principalID
    ensures Principal(graph, a).value.value.resource == a.principalID && PlainPrincipal(Principal(graph, a).value.value)
  {
    var kind := PrincipalType(graph, a.principalID).value;
    ResourceNamed(kind, a.principalID);
  }

  lemma SameRoleGrant(subscription: string, role: string, p: ResourceId, role': string, p': ResourceId)
    requires Plain(subscription) && Plain(role) && Plain(role') && PlainPrincipal(p) && PlainPrincipal(p')
    ensures NewGrant(ResourceId(ROLE, RoleResource(subscription, role)), ASSIGNED, p).id ==
            NewGrant(ResourceId(ROLE, RoleResource(subscription, role')), ASSIGNED, p').id
            <==> role == role' && p == p'
  {
    if NewGrant(ResourceId(ROLE, RoleResource(subscription, role)), ASSIGNED, p).id ==
       NewGrant(ResourceId(ROLE, RoleResource(subscription, role')), ASSIGNED, p').id {
      RoleGrantIdInjective(subscription, role, p, subscription, role', p');
    }
  }

  /** The grants of two assignments have one ID exactly when principal and role are the same. */
  lemma SameGrantId(a: RoleAssignment, role: string, a': RoleAssignment, role': string, subscription: string, graph: Graph)
    requires Plain(subscription) && Plain(role) && Plain(role')
    requires a.roleDefinitionID == RoleDefinitionID(subscription, role)
    requires a'.roleDefinitionID == RoleDefinitionID(subscription, role')
    requires Principal(graph, a).Some? && Principal(graph, a).value.Some? && ':' !in a.principalID
    requires Principal(graph, a').Some? && Principal(graph, a').value.Some? && ':' !in a'.principalID
    requires |Alone(a, graph)| == 1 && |Alone(a', graph)| == 1
    ensures Alone(a, graph)[0].id == Alone(a', graph)[0].id <==> SameHolding(a, a')
  {
    WantedAlone(a, subscription, role, graph);
    WantedAlone(a', subscription, role', graph);
    PrincipalNamed(a, graph);
    PrincipalNamed(a', graph);
    SameRoleGrant(subscription, role, Principal(graph, a).value.value, role', Principal(graph, a').value.value);
    RoleDefinitionInjective(subscription, role, role');
    assert a.principalID == a'.principalID ==> Principal(graph, a) == Principal(graph, a');
  }

  /** The IDs of all grants that a sync of a subscription's roles reports are pairwise
      distinct exactly when no principal has one role by two listed assignments, which
      the listing can show when they are made at two scopes. */
  lemma {:induction false} ReplyIdsDistinct(entries: Entries, calls: seq<Call>, subscription: string, roles: seq<string>,
                                            listing: string -> Listing<RoleAssignment>, graph: Graph)
    requires FirstFill(calls, subscription).Some? && FirstFill(calls, subscription).value.Complete()
    requires Distinct(roles) && Plain(subscription) && forall i | 0 <= i < |roles| :: Plain(roles[i])
    requires forall a | a in FirstFill(calls, subscription).value.All() :: ':' !in a.principalID
    requires RoleReplies(Run(State(map[], entries), calls, graph).cache, subscription, roles, listing, graph).Reported?
    ensures var replies := RoleReplies(Run(State(map[], entries), calls, graph).cache, subscription, roles, listing, graph);
            var wanted := Select(FirstFill(calls, subscription).value.All(), a => OfSomeRole(a, subscription, roles, graph));
            DistinctIds(replies.grants) <==> forall i, j | 0 <= i < j < |wanted| :: !SameHolding(wanted[i], wanted[j])
  {
    var list := FirstFill(calls, subscription).value.All();
    var wanted := Select(list, a => OfSomeRole(a, subscription, roles, graph));
    var grants := RoleReplies(Run(State(map[], entries), calls, graph).cache, subscription, roles, listing, graph).grants;
    EachAssignmentReportedOnce(entries, calls, subscription, roles, listing, graph);
    WantedIdsDistinct(list, subscription, roles, graph);
    if DistinctIds(grants) {
      DistinctPermuted(grants, AllAlone(wanted, graph));
    }
    if DistinctIds(AllAlone(wanted, graph)) {
      DistinctPermuted(AllAlone(wanted, graph), grants);
    }
  }

  /** A selected assignment is of one of the roles, with a principal the SDK can take. */
  lemma WantedRole(list: seq<RoleAssignment>, subscription: string, roles: seq<string>, graph: Graph, a: RoleAssignment)
    returns (role: string)
    requires AllMapped(list, subscription, roles, graph)
    requires a in Select(list, a => OfSomeRole(a, subscription, roles, graph))
    ensures a in list && role in roles && a.roleDefinitionID == RoleDefinitionID(subscription, role)
    ensures Principal(graph, a).Some? && Principal(graph, a).value.Some?
  {
    SelectMembers(list, a => OfSomeRole(a, subscription, roles, graph));
    assert OfSomeRole(a, subscription, roles, graph);
    var k :| 0 <= k < |roles| && a.roleDefinitionID == RoleDefinitionID(subscription, roles[k]);
    assert !Unmapped(a, RoleDefinitionID(subscription, roles[k]), graph);
    role := roles[k];
  }

  lemma WantedIdsDistinct(list: seq<RoleAssignment>, subscription: string, roles: seq<string>, graph: Graph)
    requires AllMapped(list, subscription, roles, graph) && Plain(subscription) && forall i | 0 <= i < |roles| :: Plain(roles[i])
    requires forall a | a in list :: ':' !in a.principalID
    ensures var wanted := Select(list, a => OfSomeRole(a, subscription, roles, graph));
            DistinctIds(AllAlone(wanted, graph)) <==> forall i, j | 0 <= i < j < |wanted| :: !SameHolding(wanted[i], wanted[j])
  {
    var wanted := Select(list, a => OfSomeRole(a, subscription, roles, graph));
    OneEach(list, subscription, roles, graph);
    forall i, j | 0 <= i < j < |wanted|
      ensures AllAlone(wanted, graph)[i].id == AllAlone(wanted, graph)[j].id <==> SameHolding(wanted[i], wanted[j])
    {
      var role := WantedRole(list, subscription, roles, graph, wanted[i]);
      var role' := WantedRole(list, subscription, roles, graph, wanted[j]);
      SameGrantId(wanted[i], role, wanted[j], role', subscription, graph);
    }
  }

  // ---- what a reported grant can be revoked by ----

  /** What revoking a reported user grant comes to. `Revoke` asks Azure for the very listing
      the sync was made from, so it finds an assignment, in any order of that listing; it then
      deletes by name at the subscription's scope, which fails when the assignment found was
      made elsewhere. It succeeds in every order exactly when all the shown assignments
      of the user and role have names in use at the subscription. */
  lemma {:induction false} ReportedGrantRevocable(entries: Entries, subscription: string, role: string, graph: Graph,
                                                  listing: Listing<RoleAssignment>, shows: string -> bool,
                                                  search: Listing<RoleAssignment>, g: Grant)
    requires Plain(subscription) && Plain(role)
    requires Enumerates(listing, entries, shows) && Enumerates(search, entries, shows)
    requires var reply := FreshGrants(ResourceId(ROLE, RoleResource(subscription, role)), listing, graph);
             reply.Reported? && g in reply.grants
    requires g.principal.resourceType == USER
    ensures var b := Binding(g.principal.resource, RoleDefinitionID(subscription, role));
            Revoked(entries, RoleTarget(g.entitlement.resource.resource), g.principal, search, SubscriptionScope(subscription), b)
    ensures var t := Target(SubscriptionScope(subscription), RoleDefinitionID(subscription, role));
            AlwaysRevoked(entries, shows, t, g.principal.resource)
            <==> NamedAt(entries, shows, t.scope, Binding(g.principal.resource, t.roleDefinitionID))
  {
    RoleIdRoundTrip(subscription, role);
    ReportedRevocable(entries, Target(SubscriptionScope(subscription), RoleDefinitionID(subscription, role)),
                      ResourceId(ROLE, RoleResource(subscription, role)), graph, listing, shows, search, g);
  }

  // ---- the provisioning cycle with fresh builders ----

  /** `Grants` on a builder with an empty cache. */
  function FreshGrants(resource: ResourceId, listing: Listing<RoleAssignment>, graph: Graph): GrantsReply {
    GrantsEffect(map[], resource, listing, graph).1
  }

  /** The scenario of the provisioning test for a role of a subscription, as listed through
      `getRoleId`: each sync uses a fresh builder, and `Grant` and `Revoke` read their target
      from the role's resource ID. `shows` says which scopes the subscription's listing covers. */
  lemma {:induction false} RoleProvisioningCycle(entries: Entries, subscription: string, role: string, p: string, name: string, name': string,
                              shows: string -> bool, graph: Graph, lists: Listings)
    requires Plain(subscription) && Plain(role)
    requires CycleSetup(entries, Target(SubscriptionScope(subscription), RoleDefinitionID(subscription, role)),
                        p, name, name', shows, graph, lists)
    ensures var resource := ResourceId(ROLE, RoleResource(subscription, role));
            CycleOutcome(entries, RoleTarget(resource.resource), resource, p, name, name', lists,
                         l => FreshGrants(resource, l, graph))
  {
    var resource := ResourceId(ROLE, RoleResource(subscription, role));
    RoleIdRoundTrip(subscription, role);
    var t := Target(SubscriptionScope(subscription), RoleDefinitionID(subscription, role));
    ProvisioningCycle(entries, t, resource, p, name, name', shows, graph, lists, l => FreshGrants(resource, l, graph));
  }

  // Each step of the scenario is a separate run of the connector: a new builder.

  method SyncOnce(store: RoleAssignmentStore, resource: ResourceId, listing: Listing<RoleAssignment>, graph: Graph)
    returns (r: GrantsReply)
    ensures r == FreshGrants(resource, listing, graph)
  {
    var builder := new RoleBuilder(store);
    r := builder.Grants(resource, listing, graph);
  }

  method GrantOnce(store: RoleAssignmentStore, principal: ResourceId, entitlement: Entitlement, name: string)
    returns (err: Option<Error>)
    modifies store
    ensures (store.entries, err) ==
            GrantEffect(old(store.entries), RoleTarget(entitlement.resource.resource), principal, name, NoFault)
  {
    var builder := new RoleBuilder(store);
    err := builder.Grant(principal, entitlement, name, NoFault);
  }

  method RevokeOnce(store: RoleAssignmentStore, grant: Grant, listing: Listing<RoleAssignment>) returns (err: Option<Error>)
    modifies store
    ensures (store.entries, err) ==
            RevokeEffect(old(store.entries), RoleTarget(grant.entitlement.resource.resource), grant.principal, listing, NoFault)
  {
    var builder := new RoleBuilder(store);
    err := builder.Revoke(grant, listing, NoFault);
  }

  /** Sync, grant, sync, and the grant again. */
  method GrantTwice(store: RoleAssignmentStore, resource: ResourceId, user: ResourceId, name: string, name': string,
                    graph: Graph, before: Listing<RoleAssignment>, granted: Listing<RoleAssignment>)
    returns (s0: GrantsReply, e0: Option<Error>, s1: GrantsReply, e1: Option<Error>)
    modifies store
    ensures s0 == FreshGrants(resource, before, graph) && s1 == FreshGrants(resource, granted, graph)
    ensures var once := GrantEffect(old(store.entries), RoleTarget(resource.resource), user, name, NoFault);
            e0 == once.1
            && (store.entries, e1) == GrantEffect(once.0, RoleTarget(resource.resource), user, name', NoFault)
  {
    var entitlement := Entitlement(NewEntitlementID(resource, ASSIGNED), resource);
    s0 := SyncOnce(store, resource, before, graph);
    e0 := GrantOnce(store, user, entitlement, name);
    s1 := SyncOnce(store, resource, granted, graph);
    e1 := GrantOnce(store, user, entitlement, name');
  }

  /** A revoke, and the same revoke again. */
  method RevokeTwice(store: RoleAssignmentStore, grant: Grant, search: Listing<RoleAssignment>, search': Listing<RoleAssignment>)
    returns (e2: Option<Error>, e3: Option<Error>)
    modifies store
    ensures var target := RoleTarget(grant.entitlement.resource.resource);
            var once := RevokeEffect(old(store.entries), target, grant.principal, search, NoFault);
            e2 == once.1 && (store.entries, e3) == RevokeEffect(once.0, target, grant.principal, search', NoFault)
  {
    e2 := RevokeOnce(store, grant, search);
    e3 := RevokeOnce(store, grant, search');
  }

  /** The calls of the scenario on the builders themselves, for a resource whose outcome is known. */
  method ScenarioCalls(store: RoleAssignmentStore, resource: ResourceId, p: string, name: string, name': string,
                       graph: Graph, lists: Listings)
    returns (syncs: seq<GrantsReply>, errors: seq<Option<Error>>)
    requires CycleOutcome(store.entries, RoleTarget(resource.resource), resource, p, name, name', lists,
                          l => FreshGrants(resource, l, graph))
    modifies store
    ensures |syncs| == 4 && ReportsNothing(syncs[0], p) && ReportsOnce(syncs[1], resource, p)
            && ReportsNothing(syncs[2], p) && ReportsOnce(syncs[3], resource, p)
    ensures errors == [None, None, None, Some(AssignmentNotFound), None]
    ensures var t := RoleTarget(resource.resource).value;
            store.entries == old(store.entries)[Key(t.scope, name') := Binding(p, t.roleDefinitionID)]
  {
    ghost var g := NewGrant(resource, ASSIGNED, ResourceId(USER, p));
    assert CycleStores(store.entries, RoleTarget(resource.resource), g, name, name', lists);
    assert CycleSyncs(resource, p, lists, l => FreshGrants(resource, l, graph));
    var user := ResourceId(USER, p);
    var s0, e0, s1, e1 := GrantTwice(store, resource, user, name, name', graph, lists.before, lists.granted);
    assert ReportsOnce(s1, resource, p);
    var reported := Held(s1.grants, p)[0];
    assert reported == g;
    var e2, e3 := RevokeTwice(store, reported, lists.search, lists.search');
    var s2 := SyncOnce(store, resource, lists.revoked, graph);
    var e4 := GrantOnce(store, user, Entitlement(NewEntitlementID(resource, ASSIGNED), resource), name');
    var s3 := SyncOnce(store, resource, lists.regranted, graph);
    syncs, errors := [s0, s1, s2, s3], [e0, e1, e2, e3, e4];
  }

  /** The scenario on the builders themselves, for a role listed through `getRoleId`: the
      replies, the errors and the store at its end. */
  method Scenario(store: RoleAssignmentStore, subscription: string, role: string, p: string, name: string, name': string,
                  ghost shows: string -> bool, graph: Graph, lists: Listings)
    returns (syncs: seq<GrantsReply>, errors: seq<Option<Error>>)
    requires Plain(subscription) && Plain(role)
    requires CycleSetup(store.entries, Target(SubscriptionScope(subscription), RoleDefinitionID(subscription, role)),
                        p, name, name', shows, graph, lists)
    modifies store
    ensures var resource := ResourceId(ROLE, RoleResource(subscription, role));
            |syncs| == 4 && ReportsNothing(syncs[0], p) && ReportsOnce(syncs[1], resource, p)
            && ReportsNothing(syncs[2], p) && ReportsOnce(syncs[3], resource, p)
    ensures errors == [None, None, None, Some(AssignmentNotFound), None]
    ensures store.entries == old(store.entries)[Key(SubscriptionScope(subscription), name')
                                                := Binding(p, RoleDefinitionID(subscription, role))]
  {
    RoleIdRoundTrip(subscription, role);
    RoleProvisioningCycle(store.entries, subscription, role, p, name, name', shows, graph, lists);
    syncs, errors := ScenarioCalls(store, ResourceId(ROLE, RoleResource(subscription, role)), p, name, name', graph, lists);
  }
}
