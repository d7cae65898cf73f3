/** Granting and revoking role assignments against the remote store. Both builders share
    the effects below; they differ in how a resource ID names its target. */
module Provisioning {
  import opened Wrappers
  import opened Resources
  import opened Identifiers
  import opened Paging
  import opened Directory
  import opened Assignments

  /** What may go wrong with one call to Azure: it is refused with a status, or the reply
      is lost, in which case the call may or may not have been applied. */
  datatype Fault = NoFault | Refused(status: int) | Lost(applied: bool)

  const CONFLICT := 409

  datatype CreateReply = Created | ResponseError(status: int) | TransportError

  datatype DeleteReply = Deleted | NothingDeleted | DeleteFailed

  /** Azure refuses a second assignment of one role to one principal at one scope, and a
      second assignment of one name at one scope. */
  ghost predicate Conflicts(entries: Entries, k: Key, b: Binding) {
    k in entries || Assigned(entries, k.scope, b)
  }

  ghost function CreateEffect(entries: Entries, k: Key, b: Binding, fault: Fault): (Entries, CreateReply) {
    var created := if Conflicts(entries, k, b) then entries else entries[k := b];
    match fault
    case NoFault => (created, if Conflicts(entries, k, b) then ResponseError(CONFLICT) else Created)
    case Refused(status) => (entries, ResponseError(status))
    case Lost(applied) => (if applied then created else entries, TransportError)
  }

  ghost function DeleteEffect(entries: Entries, k: Key, fault: Fault): (Entries, DeleteReply) {
    match fault
    case NoFault => (entries - {k}, if k in entries then Deleted else NothingDeleted)
    case Refused(_) => (entries, DeleteFailed)
    case Lost(applied) => (if applied then entries - {k} else entries, DeleteFailed)
  }

  /** The store behind the role assignments client. */
  class RoleAssignmentStore {
    var entries: Entries

    constructor (entries: Entries)
      ensures this.entries == entries
    {
      this.entries := entries;
    }

    method Create(scope: string, name: string, b: Binding, fault: Fault) returns (reply: CreateReply)
      modifies this
      ensures (entries, reply) == CreateEffect(old(entries), Key(scope, name), b, fault)
    {
      if fault.Refused? {
        return ResponseError(fault.status);
      }
      var k := Key(scope, name);
      var conflict := k in entries || exists e <- entries.Keys :: e.scope == scope && entries[e] == b;
      if !conflict && (fault.NoFault? || fault.applied) {
        entries := entries[k := b];
      }
      reply := if fault.Lost? then TransportError else if conflict then ResponseError(CONFLICT) else Created;
    }

    method Delete(scope: string, name: string, fault: Fault) returns (reply: DeleteReply)
      modifies this
      ensures (entries, reply) == DeleteEffect(old(entries), Key(scope, name), fault)
    {
      var k := Key(scope, name);
      reply := if !fault.NoFault? then DeleteFailed else if k in entries then Deleted else NothingDeleted;
      if fault.NoFault? || (fault.Lost? && fault.applied) {
        entries := entries - {k};
      }
    }
  }

  // ---- Grant and Revoke ----

  /** `Grant`: the store after it, and the error it returns. Every response error is
      swallowed, not only the conflict. */
  ghost function GrantEffect(entries: Entries, target: Option<Target>, principal: ResourceId, name: string, fault: Fault)
    : (Entries, Option<Error>)
  {
    if principal.resourceType != USER then (entries, Some(UsersOnly))
    else match target
      case None => (entries, Some(InvalidRoleID))
      case Some(t) =>
        var (after, reply) := CreateEffect(entries, Key(t.scope, name), Binding(principal.resource, t.roleDefinitionID), fault);
        (after, if reply.TransportError? then Some(RemoteFailure) else None)
  }

  /** `Revoke`: find the assignment's name in the scope's listing, then delete it. */
  ghost function RevokeEffect(entries: Entries, target: Option<Target>, principal: ResourceId,
                              listing: Listing<RoleAssignment>, fault: Fault)
    : (Entries, Option<Error>)
  {
    if principal.resourceType != USER then (entries, Some(UsersOnly))
    else match target
      case None => (entries, Some(InvalidRoleID))
      case Some(t) =>
        match AssignmentID(listing, Binding(principal.resource, t.roleDefinitionID))
        case Err(e) => (entries, Some(e))
        case Ok(name) =>
          var (after, reply) := DeleteEffect(entries, Key(t.scope, name), fault);
          (after, match reply
                  case Deleted => None
                  case NothingDeleted => Some(NotDeleted)
                  case DeleteFailed => Some(RemoteFailure))
  }

  /** How `Grant` ends, for every fault. It fails exactly for a principal that is not a user,
      an ID without a target, or a create call without a response; a response that refuses
      the call is a success. The assignment is made exactly when the call took effect on
      a free name at a scope where the principal did not have the role. */
  lemma GrantExactly(entries: Entries, target: Option<Target>, principal: ResourceId, name: string, fault: Fault)
    ensures var (after, error) := GrantEffect(entries, target, principal, name, fault);
            && (error == None <==> principal.resourceType == "user" && target.Some? && !fault.Lost?)
            && (principal.resourceType != "user" ==> error == Some(UsersOnly))
            && (principal.resourceType == "user" && target.None? ==> error == Some(InvalidRoleID))
            && (principal.resourceType == "user" && target.Some? && fault.Lost? ==> error == Some(RemoteFailure))
    ensures var after := GrantEffect(entries, target, principal, name, fault).0;
            if principal.resourceType == "user" && target.Some? && (fault == NoFault || fault == Lost(true))
               && Key(target.value.scope, name) !in entries
               && forall k | k in entries && k.scope == target.value.scope ::
                    entries[k] != Binding(principal.resource, target.value.roleDefinitionID)
            then after == entries[Key(target.value.scope, name) := Binding(principal.resource, target.value.roleDefinitionID)]
            else after == entries
  {
  }

  /** How `Revoke` ends, for every fault, with the name its search found, if it found one. */
  lemma RevokeExactly(entries: Entries, target: Option<Target>, principal: ResourceId, listing: Listing<RoleAssignment>, fault: Fault)
    ensures var (after, error) := RevokeEffect(entries, target, principal, listing, fault);
            if principal.resourceType != "user" then (after, error) == (entries, Some(UsersOnly))
            else if target.None? then (after, error) == (entries, Some(InvalidRoleID))
            else
              match AssignmentID(listing, Binding(principal.resource, target.value.roleDefinitionID))
              case Err(e) => (after, error) == (entries, Some(e))
              case Ok(name) =>
                var k := Key(target.value.scope, name);
                && (error == None <==> fault == NoFault && k in entries)
                && (fault == NoFault && k !in entries ==> error == Some(NotDeleted))
                && (fault != NoFault ==> error == Some(RemoteFailure))
                && after == if fault == NoFault || fault == Lost(true) then map j | j in entries && j != k :: entries[j] else entries
  {
    if target.Some? && AssignmentID(listing, Binding(principal.resource, target.value.roleDefinitionID)).Ok? {
      var k := Key(target.value.scope, AssignmentID(listing, Binding(principal.resource, target.value.roleDefinitionID)).value);
      assert entries - {k} == map j | j in entries && j != k :: entries[j];
    }
  }

  /** When `Grant` succeeds, the principal holds the role at the scope exactly when it did
      before or the create call was answered without a fault under an unused name. */
  lemma GrantSuccess(entries: Entries, t: Target, principal: ResourceId, name: string, fault: Fault)
    requires GrantEffect(entries, Some(t), principal, name, fault).1.None?
    ensures var b := Binding(principal.resource, t.roleDefinitionID);
            Assigned(GrantEffect(entries, Some(t), principal, name, fault).0, t.scope, b)
            <==> Assigned(entries, t.scope, b) || (fault.NoFault? && Key(t.scope, name) !in entries)
  {
    var b := Binding(principal.resource, t.roleDefinitionID);
    var after := GrantEffect(entries, Some(t), principal, name, fault).0;
    if fault.NoFault? && !Conflicts(entries, Key(t.scope, name), b) {
      assert Key(t.scope, name) in after && after[Key(t.scope, name)] == b;
    }
  }

  /** A refused create call is reported as success and assigns nothing. */
  lemma RefusedGrantSucceeds(entries: Entries, t: Target, principal: string, name: string, status: int)
    ensures GrantEffect(entries, Some(t), ResourceId(USER, principal), name, Refused(status)) == (entries, None)
  {
  }

  /** `Revoke` succeeds exactly when the listing served the assignment, the delete call
      had no fault, and the store still held the name. */
  lemma RevokeSuccess(entries: Entries, t: Target, principal: ResourceId, listing: Listing<RoleAssignment>, fault: Fault)
    ensures var b := Binding(principal.resource, t.roleDefinitionID);
            RevokeEffect(entries, Some(t), principal, listing, fault).1.None?
            <==> && principal.resourceType == USER
                 && fault.NoFault?
                 && (exists a :: a in Flatten(listing.Served()) && Is(a, b))
                 && var found := AssignmentID(listing, b);
                    found.Ok? && Key(t.scope, found.value) in entries
  {
    FirstMatchMeaning(Flatten(listing.Served()), Binding(principal.resource, t.roleDefinitionID));
  }

  // ---- histories of calls ----

  datatype Builder = Roles | ResourceGroupRoles

  datatype Op =
    | GrantOp(builder: Builder, principal: ResourceId, resource: string, name: string, fault: Fault)
    | RevokeOp(builder: Builder, principal: ResourceId, resource: string, listing: Listing<RoleAssignment>, fault: Fault)

  function TargetOf(op: Op): Option<Target> {
    match op.builder
    case Roles => RoleTarget(op.resource)
    case ResourceGroupRoles => ResourceGroupTarget(op.resource)
  }

  ghost function Provision(entries: Entries, op: Op): (Entries, Option<Error>) {
    match op
    case GrantOp(_, principal, _, name, fault) => GrantEffect(entries, TargetOf(op), principal, name, fault)
    case RevokeOp(_, principal, _, listing, fault) => RevokeEffect(entries, TargetOf(op), principal, listing, fault)
  }

  /** The call passes the checks on the principal's kind and the ID's parts. */
  ghost predicate Accepted(op: Op) {
    op.principal.resourceType == USER && TargetOf(op).Some?
  }

  /** The call is about binding `b` at `scope`. */
  ghost predicate Concerns(op: Op, scope: string, b: Binding) {
    && Accepted(op)
    && TargetOf(op).value == Target(scope, b.roleDefinitionID)
    && op.principal.resource == b.principalID
  }

  /** Assignment names are unique, at whatever scopes. */
  ghost predicate NamesUnique(entries: Entries) {
    forall k, k' | k in entries && k' in entries && k.name == k'.name :: k == k'
  }

  /** What a revoke's listing serves, of whatever scopes, is true of the store it is called
      on, whose names are unique. */
  ghost predicate Truthful(entries: Entries, op: Op) {
    op.RevokeOp? ==> NamesUnique(entries) && forall a | a in Flatten(op.listing.Served()) :: Holds(entries, a)
  }

  ghost function After(entries: Entries, ops: seq<Op>): Entries
    decreases |ops|
  {
    if ops == [] then entries else After(Provision(entries, ops[0]).0, ops[1..])
  }

  ghost predicate TruthfulRun(entries: Entries, ops: seq<Op>)
    decreases |ops|
  {
    ops == [] || (Truthful(entries, ops[0]) && TruthfulRun(Provision(entries, ops[0]).0, ops[1..]))
  }

  ghost predicate Item(entries: Entries, k: Key, b: Binding) {
    k in entries && entries[k] == b
  }

  /** A call that fails a check returns an error and leaves the store as it was. */
  lemma RejectedChangesNothing(entries: Entries, op: Op)
    ensures !Accepted(op) ==> Provision(entries, op).0 == entries && Provision(entries, op).1.Some?
  {
  }

  /** The call may add or remove an assignment at key `k`: a grant, the binding it asks for
      under the name it asks for; a revoke, whatever holds a name that its listing served
      for its own principal and role. */
  ghost predicate Touches(op: Op, k: Key, b: Binding) {
    && Accepted(op)
    && TargetOf(op).value.scope == k.scope
    && var own := Binding(op.principal.resource, TargetOf(op).value.roleDefinitionID);
       match op
       case GrantOp(_, _, _, name, _) => k.name == name && b == own
       case RevokeOp(_, _, _, listing, _) => exists a :: a in Flatten(listing.Served()) && Is(a, own) && a.name == k.name
  }

  /** One call adds or removes an assignment only if it touches it; if a revoke's listing is
      true of the store and names are unique, only one of its own scope, principal and role. */
  lemma StepFrame(entries: Entries, op: Op, k: Key, b: Binding)
    requires Item(entries, k, b) != Item(Provision(entries, op).0, k, b)
    ensures Touches(op, k, b)
    ensures Truthful(entries, op) ==> Concerns(op, k.scope, b)
  {
    if op.RevokeOp? && Accepted(op) {
      FirstMatchMeaning(Flatten(op.listing.Served()), Binding(op.principal.resource, TargetOf(op).value.roleDefinitionID));
    }
  }

  /** Over every history of grants and revokes of both builders, an assignment appears or
      disappears only if some call of the history was accepted and touches it; and, when
      the listings of the revokes are true of the store, is about exactly it. */
  lemma {:induction false} HistoryFrame(entries: Entries, ops: seq<Op>, k: Key, b: Binding)
    requires Item(entries, k, b) != Item(After(entries, ops), k, b)
    ensures exists i :: 0 <= i < |ops| && Touches(ops[i], k, b)
    ensures TruthfulRun(entries, ops) ==> exists i :: 0 <= i < |ops| && Concerns(ops[i], k.scope, b)
    decreases |ops|
  {
    var next := Provision(entries, ops[0]).0;
    if Item(entries, k, b) != Item(next, k, b) {
      StepFrame(entries, ops[0], k, b);
    } else {
      HistoryFrame(next, ops[1..], k, b);
      var i :| 0 <= i < |ops[1..]| && Touches(ops[1..][i], k, b);
      assert ops[i + 1] == ops[1..][i];
      if TruthfulRun(entries, ops) {
        var j :| 0 <= j < |ops[1..]| && Concerns(ops[1..][j], k.scope, b);
        assert ops[j + 1] == ops[1..][j];
      }
    }
  }

  // ---- the provisioning cycle ----

  /** The grants a sync reports to one principal. */
  function Held(grants: seq<Grant>, principalID: string): seq<Grant> {
    if grants == [] then []
    else (if grants[0].principal.resource == principalID then [grants[0]] else []) + Held(grants[1..], principalID)
  }

  /** A sync reports to a user one grant for each listed assignment of the role to it. */
  lemma {:induction false} HeldOfReport(list: seq<RoleAssignment>, b: Binding, resource: ResourceId, graph: Graph)
    requires PrincipalType(graph, b.principalID) == Ok(GRAPH_USER)
    requires Report(list, b.roleDefinitionID, resource, graph).Reported?
    ensures var held := Held(Report(list, b.roleDefinitionID, resource, graph).grants, b.principalID);
            && |held| == |Select(list, a => Is(a, b))|
            && forall g | g in held :: g == NewGrant(resource, ASSIGNED, ResourceId(USER, b.principalID))
  {
    if list != [] {
      HeldOfReport(list[1..], b, resource, graph);
      var rest := Report(list[1..], b.roleDefinitionID, resource, graph).grants;
      var one := ReportOne(list[0], b.roleDefinitionID, resource, graph);
      assert Report(list, b.roleDefinitionID, resource, graph).grants == one.grants + rest;
      if |one.grants| == 1 {
        assert (one.grants + rest)[1..] == rest;
      } else {
        assert one.grants + rest == rest;
      }
    }
  }

  /** Of a list without repetitions, the one element that qualifies is selected once. */
  lemma {:induction false} SelectUnique(list: seq<RoleAssignment>, p: RoleAssignment -> bool, at: nat)
    requires Distinct(list) && at < |list|
    requires forall i :: 0 <= i < |list| ==> (p(list[i]) <==> list[i] == list[at])
    ensures Select(list, p) == [list[at]]
  {
    if at == 0 {
      SelectNone(list[1..], p);
    } else {
      SelectUnique(list[1..], p, at - 1);
    }
  }

  /** What a sync of a role reports, from a listing of the store. */
  ghost predicate Syncs(listing: Listing<RoleAssignment>, entries: Entries, shows: string -> bool, t: Target, graph: Graph) {
    && Enumerates(listing, entries, shows)
    && forall a | a in listing.All() :: !Unmapped(a, t.roleDefinitionID, graph)
  }

  function Synced(listing: Listing<RoleAssignment>, t: Target, resource: ResourceId, graph: Graph): GrantsReply {
    Report(listing.All(), t.roleDefinitionID, resource, graph)
  }

  /** No assignment the listing shows gives the binding. */
  ghost predicate Unseen(entries: Entries, shows: string -> bool, b: Binding) {
    forall k | k in entries && shows(k.scope) :: entries[k] != b
  }

  /** A sync reports nothing to a principal that holds no shown assignment of the role. */
  lemma SyncWithout(listing: Listing<RoleAssignment>, entries: Entries, shows: string -> bool,
                    t: Target, p: string, resource: ResourceId, graph: Graph)
    requires Syncs(listing, entries, shows, t, graph)
    requires PrincipalType(graph, p) == Ok(GRAPH_USER)
    requires Unseen(entries, shows, Binding(p, t.roleDefinitionID))
    ensures Synced(listing, t, resource, graph).Reported? && Held(Synced(listing, t, resource, graph).grants, p) == []
  {
    var b := Binding(p, t.roleDefinitionID);
    ReportIsFilter(listing.All(), t.roleDefinitionID, resource, graph);
    HeldOfReport(listing.All(), b, resource, graph);
    forall a | a in listing.All() ensures !Is(a, b) {
      assert Holds(entries, a) && shows(a.scope);
      assert Key(a.scope, a.name) in entries;
    }
    SelectNone(listing.All(), a => Is(a, b));
  }

  /** The assignment just made is the only one of its binding that a listing shows. */
  lemma OnlyMade(listing: Listing<RoleAssignment>, entries: Entries, shows: string -> bool, k: Key, b: Binding)
    requires shows(k.scope) && Unseen(entries, shows, b)
    requires Enumerates(listing, entries[k := b], shows)
    ensures Select(listing.All(), a => Is(a, b)) == [RoleAssignment(k.scope, k.name, b.principalID, b.roleDefinitionID)]
  {
    var made := RoleAssignment(k.scope, k.name, b.principalID, b.roleDefinitionID);
    var after := entries[k := b];
    assert Holds(after, made);
    forall a | a in listing.All() && Is(a, b) ensures a == made {
      assert Holds(after, a) && shows(a.scope);
      var ka := Key(a.scope, a.name);
      assert ka == k || ka in entries;
    }
    var at :| 0 <= at < |listing.All()| && listing.All()[at] == made;
    SelectUnique(listing.All(), a => Is(a, b), at);
  }

  /** After the assignment is made, a sync reports exactly one grant to the principal. */
  lemma SyncWith(listing: Listing<RoleAssignment>, entries: Entries, shows: string -> bool,
                 t: Target, p: string, name: string, resource: ResourceId, graph: Graph)
    requires shows(t.scope) && Unseen(entries, shows, Binding(p, t.roleDefinitionID))
    requires Syncs(listing, entries[Key(t.scope, name) := Binding(p, t.roleDefinitionID)], shows, t, graph)
    requires PrincipalType(graph, p) == Ok(GRAPH_USER)
    ensures Synced(listing, t, resource, graph).Reported?
            && Held(Synced(listing, t, resource, graph).grants, p) == [NewGrant(resource, ASSIGNED, ResourceId(USER, p))]
  {
    var b := Binding(p, t.roleDefinitionID);
    ReportIsFilter(listing.All(), t.roleDefinitionID, resource, graph);
    HeldOfReport(listing.All(), b, resource, graph);
    OnlyMade(listing, entries, shows, Key(t.scope, name), b);
    var held := Held(Synced(listing, t, resource, graph).grants, p);
    assert |held| == 1 && held[0] in held;
  }

  /** The search finds the assignment just made, if the listing shows no other of its binding. */
  lemma FindMade(listing: Listing<RoleAssignment>, entries: Entries, shows: string -> bool, k: Key, b: Binding)
    requires shows(k.scope) && Unseen(entries, shows, b)
    requires Enumerates(listing, entries[k := b], shows)
    ensures AssignmentID(listing, b) == Ok(k.name)
  {
    var made := RoleAssignment(k.scope, k.name, b.principalID, b.roleDefinitionID);
    var after := entries[k := b];
    assert Holds(after, made);
    assert made in listing.All() && Is(made, b);
    FirstMatchMeaning(listing.All(), b);
    var a :| a in listing.All() && Is(a, b) && FirstMatch(listing.All(), b) == Some(a.name);
    assert Holds(after, a) && shows(a.scope);
    var ka := Key(a.scope, a.name);
    assert ka == k || ka in entries;
  }

  lemma FindNone(listing: Listing<RoleAssignment>, entries: Entries, shows: string -> bool, b: Binding)
    requires Unseen(entries, shows, b) && Enumerates(listing, entries, shows)
    ensures AssignmentID(listing, b) == Err(AssignmentNotFound)
  {
    FirstMatchMeaning(listing.All(), b);
    forall a | a in listing.All() ensures !Is(a, b) {
      assert Holds(entries, a) && shows(a.scope);
      assert Key(a.scope, a.name) in entries;
    }
  }

  /** The listings a provisioning scenario meets: what the four syncs list, and what the
      two revokes search. */
  datatype Listings = Listings(before: Listing<RoleAssignment>, granted: Listing<RoleAssignment>,
                               search: Listing<RoleAssignment>, revoked: Listing<RoleAssignment>,
                               search': Listing<RoleAssignment>, regranted: Listing<RoleAssignment>)

  /** User `p` holds no shown assignment of the target, the names are unused, and each
      listing is of the store it is served from. */
  ghost predicate CycleSetup(entries: Entries, t: Target, p: string, name: string, name': string,
                             shows: string -> bool, graph: Graph, lists: Listings) {
    var b := Binding(p, t.roleDefinitionID);
    var made := entries[Key(t.scope, name) := b];
    var remade := entries[Key(t.scope, name') := b];
    && shows(t.scope)
    && PrincipalType(graph, p) == Ok(GRAPH_USER)
    && Unseen(entries, shows, b)
    && Key(t.scope, name) !in entries && Key(t.scope, name') !in entries
    && Syncs(lists.before, entries, shows, t, graph)
    && Syncs(lists.granted, made, shows, t, graph)
    && Enumerates(lists.search, made, shows)
    && Syncs(lists.revoked, entries, shows, t, graph)
    && Enumerates(lists.search', entries, shows)
    && Syncs(lists.regranted, remade, shows, t, graph)
  }

  /** The sync reports to `p` exactly the one grant of `resource`. */
  ghost predicate ReportsOnce(sync: GrantsReply, resource: ResourceId, p: string) {
    sync.Reported? && Held(sync.grants, p) == [NewGrant(resource, ASSIGNED, ResourceId(USER, p))]
  }

  ghost predicate ReportsNothing(sync: GrantsReply, p: string) {
    sync.Reported? && Held(sync.grants, p) == []
  }

  /** What the scenario does to the store, with `g` the grant a sync reports: the grant makes
      the assignment, granting again changes nothing and succeeds, revoking `g` restores
      the store, revoking it again fails and changes nothing, and the grant can be made anew. */
  ghost predicate CycleStores(entries: Entries, target: Option<Target>, g: Grant, name: string, name': string, lists: Listings) {
    target.Some?
    && var t, user := target.value, g.principal;
       var b := Binding(user.resource, t.roleDefinitionID);
       var made := entries[Key(t.scope, name) := b];
       var remade := entries[Key(t.scope, name') := b];
       && GrantEffect(entries, target, user, name, NoFault) == (made, None)
       && GrantEffect(made, target, user, name', NoFault) == (made, None)
       && RevokeEffect(made, target, user, lists.search, NoFault) == (entries, None)
       && RevokeEffect(entries, target, user, lists.search', NoFault) == (entries, Some(AssignmentNotFound))
       && GrantEffect(entries, target, user, name', NoFault) == (remade, None)
  }

  /** What the syncs between those calls report to `p`: nothing, one grant, nothing, one grant. */
  ghost predicate CycleSyncs(resource: ResourceId, p: string, lists: Listings, sync: Listing<RoleAssignment> -> GrantsReply) {
    && ReportsNothing(sync(lists.before), p)
    && ReportsOnce(sync(lists.granted), resource, p)
    && ReportsNothing(sync(lists.revoked), p)
    && ReportsOnce(sync(lists.regranted), resource, p)
  }

  /** The outcome of the scenario of the provisioning test: sync, grant, sync, grant again,
      revoke the grant the sync reported, revoke it again, sync, grant anew, sync. */
  ghost predicate CycleOutcome(entries: Entries, target: Option<Target>, resource: ResourceId, p: string,
                               name: string, name': string, lists: Listings,
                               sync: Listing<RoleAssignment> -> GrantsReply) {
    && CycleStores(entries, target, NewGrant(resource, ASSIGNED, ResourceId(USER, p)), name, name', lists)
    && CycleSyncs(resource, p, lists, sync)
  }

  lemma CycleOfStores(entries: Entries, t: Target, g: Grant, name: string, name': string,
                      shows: string -> bool, graph: Graph, lists: Listings)
    requires g.principal.resourceType == USER
    requires CycleSetup(entries, t, g.principal.resource, name, name', shows, graph, lists)
    ensures CycleStores(entries, Some(t), g, name, name', lists)
  {
    var p := g.principal.resource;
    var b := Binding(p, t.roleDefinitionID);
    var k := Key(t.scope, name);
    var made := entries[k := b];
    assert !Assigned(entries, t.scope, b);
    assert made[k] == b && Assigned(made, t.scope, b);
    FindMade(lists.search, entries, shows, k, b);
    assert made - {k} == entries;
    FindNone(lists.search', entries, shows, b);
  }

  /** The scenario holds for every store, target, user and choice of listings, for any sync
      that reports what the listing holds of the role. */
  lemma ProvisioningCycle(entries: Entries, t: Target, resource: ResourceId, p: string, name: string, name': string,
                          shows: string -> bool, graph: Graph, lists: Listings,
                          sync: Listing<RoleAssignment> -> GrantsReply)
    requires CycleSetup(entries, t, p, name, name', shows, graph, lists)
    requires forall l: Listing<RoleAssignment> | l.Complete() :: sync(l) == Synced(l, t, resource, graph)
    ensures CycleOutcome(entries, Some(t), resource, p, name, name', lists, sync)
  {
    CycleOfStores(entries, t, NewGrant(resource, ASSIGNED, ResourceId(USER, p)), name, name', shows, graph, lists);
    SyncWithout(lists.before, entries, shows, t, p, resource, graph);
    SyncWith(lists.granted, entries, shows, t, p, name, resource, graph);
    SyncWithout(lists.revoked, entries, shows, t, p, resource, graph);
    SyncWith(lists.regranted, entries, shows, t, p, name', resource, graph);
  }

  /** The premises of the scenario can be met for every target, user and pair of names, and
      whatever else the listings show: by an empty store and listings of one page. */
  lemma CycleSetupMet(t: Target, p: string, name: string, name': string, shows: string -> bool)
    returns (graph: Graph, lists: Listings)
    requires shows(t.scope)
    ensures CycleSetup(map[], t, p, name, name', shows, graph, lists)
  {
    graph := Graph((_, _) => Ok(map["@odata.type" := Json.Text(GRAPH_USER)]));
    var none := Listing([[]], 1);
    var first := OneListed(RoleAssignment(t.scope, name, p, t.roleDefinitionID), shows);
    var second := OneListed(RoleAssignment(t.scope, name', p, t.roleDefinitionID), shows);
    assert none.All() == [] + Flatten(none.pages[1..]);
    lists := Listings(none, first, first, none, none, second);
    assert Gathered(graph, p, 1) == Gathered(graph, p, 0) + map["@odata.type" := Json.Text(GRAPH_USER)];
  }

  lemma OneListed(a: RoleAssignment, shows: string -> bool) returns (listing: Listing<RoleAssignment>)
    requires shows(a.scope)
    ensures Enumerates(listing, map[Key(a.scope, a.name) := Binding(a.principalID, a.roleDefinitionID)], shows)
    ensures listing.All() == [a]
  {
    listing := Listing([[a]], 1);
    assert listing.All() == [a] + Flatten(listing.pages[1..]);
  }
}
