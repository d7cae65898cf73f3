/** Role assignments, the remote store that holds them, and the two ways the connector
    reads a listing of them: as grants of one role, and as the name of one assignment. */
module Assignments {
  import opened Wrappers
  import opened Resources
  import opened Paging
  import opened Directory

  datatype RoleAssignment = RoleAssignment(scope: string, name: string, principalID: string, roleDefinitionID: string)

  datatype Key = Key(scope: string, name: string)

  datatype Binding = Binding(principalID: string, roleDefinitionID: string)

  /** The assignments Azure holds, by scope and name. */
  type Entries = map<Key, Binding>

  ghost predicate Assigned(entries: Entries, scope: string, b: Binding) {
    exists k :: k in entries && k.scope == scope && entries[k] == b
  }

  // ---- listings of the store ----

  ghost predicate Distinct<T(!new)>(s: seq<T>) {
    forall i, j | 0 <= i < j < |s| :: s[i] != s[j]
  }

  ghost predicate Holds(entries: Entries, a: RoleAssignment) {
    var k := Key(a.scope, a.name);
    k in entries && entries[k] == Binding(a.principalID, a.roleDefinitionID)
  }

  /** The listing serves, in some order and some page split, each assignment whose scope
      it shows exactly once, and no page of it fails. */
  ghost predicate Enumerates(listing: Listing<RoleAssignment>, entries: Entries, shows: string -> bool) {
    && listing.Complete()
    && Distinct(listing.All())
    && forall a :: a in listing.All() <==> Holds(entries, a) && shows(a.scope)
  }

  // ---- the loop of Grants ----

  /** What `Grants` returns: grants, an error, or a Go panic. */
  datatype GrantsReply = Reported(grants: seq<Grant>) | Failed(error: Error) | Panicked

  /** The principal a grant of assignment `a` would name; None when the kind lookup fails. */
  function Principal(graph: Graph, a: RoleAssignment): Option<Option<ResourceId>> {
    match PrincipalType(graph, a.principalID)
    case Err(_) => None
    case Ok(kind) => Some(PrincipalResource(kind, a.principalID))
  }

  /** The assignments of the role whose principal resolves. */
  predicate Matches(a: RoleAssignment, roleDefinitionID: string, graph: Graph) {
    a.roleDefinitionID == roleDefinitionID && PrincipalType(graph, a.principalID).Ok?
  }

  /** A matching assignment whose principal is nil: the SDK panics on it. */
  predicate Unmapped(a: RoleAssignment, roleDefinitionID: string, graph: Graph) {
    Matches(a, roleDefinitionID, graph) && PrincipalResource(PrincipalType(graph, a.principalID).value, a.principalID).None?
  }

  /** The grant one assignment contributes: none, one, or a panic. */
  function ReportOne(a: RoleAssignment, roleDefinitionID: string, resource: ResourceId, graph: Graph): GrantsReply {
    if !Matches(a, roleDefinitionID, graph) then Reported([])
    else match Principal(graph, a).value
      case None => Panicked
      case Some(principal) => Reported([NewGrant(resource, ASSIGNED, principal)])
  }

  /** One reply after another; the second counts only if the first reports. */
  function Followed(a: GrantsReply, b: GrantsReply): GrantsReply {
    if a.Reported? && b.Reported? then Reported(a.grants + b.grants)
    else if a.Reported? then b
    else a
  }

  /** The loop over assignments that builds the grants of one role on `resource`. */
  function Report(assignments: seq<RoleAssignment>, roleDefinitionID: string, resource: ResourceId, graph: Graph)
    : GrantsReply
  {
    if assignments == [] then Reported([])
    else Followed(ReportOne(assignments[0], roleDefinitionID, resource, graph),
                  Report(assignments[1..], roleDefinitionID, resource, graph))
  }

  /** A reference filter over assignments. */
  function Select(assignments: seq<RoleAssignment>, p: RoleAssignment -> bool): seq<RoleAssignment> {
    if assignments == [] then []
    else (if p(assignments[0]) then [assignments[0]] else []) + Select(assignments[1..], p)
  }

  lemma {:induction false} SelectNone(list: seq<RoleAssignment>, p: RoleAssignment -> bool)
    requires forall i :: 0 <= i < |list| ==> !p(list[i])
    ensures Select(list, p) == []
  {
    if list != [] {
      assert !p(list[0]);
      SelectNone(list[1..], p);
    }
  }

  lemma {:induction false} ReportPanics(assignments: seq<RoleAssignment>, rd: string, resource: ResourceId, graph: Graph)
    ensures var r := Report(assignments, rd, resource, graph);
            !r.Failed? && (r.Panicked? <==> exists a :: a in assignments && Unmapped(a, rd, graph))
  {
    if assignments != [] {
      ReportPanics(assignments[1..], rd, resource, graph);
      assert assignments == [assignments[0]] + assignments[1..];
      if Unmapped(assignments[0], rd, graph) {
        assert assignments[0] in assignments;
      } else if a :| a in assignments[1..] && Unmapped(a, rd, graph) {
        assert a in assignments;
      }
    }
  }

  /** The assignment matches, and the grant is for its principal. */
  predicate GrantOf(g: Grant, a: RoleAssignment, rd: string, resource: ResourceId, graph: Graph) {
    && Matches(a, rd, graph) && !Unmapped(a, rd, graph)
    && g == NewGrant(resource, ASSIGNED, PrincipalResource(PrincipalType(graph, a.principalID).value, a.principalID).value)
  }

  lemma {:induction false} ReportSelects(assignments: seq<RoleAssignment>, rd: string, resource: ResourceId, graph: Graph)
    requires Report(assignments, rd, resource, graph).Reported?
    ensures var grants := Report(assignments, rd, resource, graph).grants;
            var selected := Select(assignments, a => Matches(a, rd, graph));
            |grants| == |selected| && forall i | 0 <= i < |selected| :: GrantOf(grants[i], selected[i], rd, resource, graph)
  {
    if assignments != [] {
      ReportSelects(assignments[1..], rd, resource, graph);
    }
  }

  /** `Grants` is the filtered listing, in order, one grant for each assignment; it panics
      exactly when a matching principal is of a kind that is not mapped. */
  lemma ReportIsFilter(assignments: seq<RoleAssignment>, rd: string, resource: ResourceId, graph: Graph)
    ensures var r := Report(assignments, rd, resource, graph);
            var selected := Select(assignments, a => Matches(a, rd, graph));
            && !r.Failed?
            && (r.Panicked? <==> exists a :: a in assignments && Unmapped(a, rd, graph))
            && (r.Reported? ==>
                  |r.grants| == |selected| && forall i | 0 <= i < |selected| :: GrantOf(r.grants[i], selected[i], rd, resource, graph))
  {
    ReportPanics(assignments, rd, resource, graph);
    if Report(assignments, rd, resource, graph).Reported? {
      ReportSelects(assignments, rd, resource, graph);
    }
  }

  // ---- the same loop, by the kinds of principals ----

  /** What one assignment adds to the grants of a role, by the kind Graph reports for its
      principal: nothing for another role or when the lookup fails, else one grant. */
  ghost predicate Adds(a: RoleAssignment, rd: string, resource: ResourceId, graph: Graph, grants: seq<Grant>) {
    if a.roleDefinitionID != rd || PrincipalType(graph, a.principalID).Err? then grants == []
    else
      match PrincipalType(graph, a.principalID).value
      case "#microsoft.graph.user" => grants == [NewGrant(resource, "assigned", ResourceId("user", a.principalID))]
      case "#microsoft.graph.group" => grants == [NewGrant(resource, "assigned", ResourceId("resource_group", a.principalID))]
      case "Application" => grants == [NewGrant(resource, "assigned", ResourceId("enterprise_application", a.principalID))]
      case "ManagedIdentity" => grants == [NewGrant(resource, "assigned", ResourceId("managed_identity", a.principalID))]
      case _ => false
  }

  /** An assignment of the role to a principal of any other kind. */
  ghost predicate OfUnknownKind(a: RoleAssignment, rd: string, graph: Graph) {
    && a.roleDefinitionID == rd && PrincipalType(graph, a.principalID).Ok?
    && PrincipalType(graph, a.principalID).value
       !in {"#microsoft.graph.user", "#microsoft.graph.group", "Application", "ManagedIdentity"}
  }

  /** The grants are what the assignments add, one after the other. */
  ghost predicate AddsInTurn(list: seq<RoleAssignment>, rd: string, resource: ResourceId, graph: Graph,
                             parts: seq<seq<Grant>>, grants: seq<Grant>) {
    && |parts| == |list| && grants == Flatten(parts)
    && forall i | 0 <= i < |list| :: Adds(list[i], rd, resource, graph, parts[i])
  }

  /** The reply holds, for each listed assignment in turn, what it adds; or it is a panic,
      because one is to a principal of unknown kind. */
  ghost predicate Answers(reply: GrantsReply, list: seq<RoleAssignment>, rd: string, resource: ResourceId, graph: Graph) {
    && !reply.Failed?
    && (reply.Panicked? <==> exists a :: a in list && OfUnknownKind(a, rd, graph))
    && (reply.Reported? ==> exists parts :: AddsInTurn(list, rd, resource, graph, parts, reply.grants))
  }

  lemma OneAdds(a: RoleAssignment, rd: string, resource: ResourceId, graph: Graph)
    ensures var one := ReportOne(a, rd, resource, graph);
            !one.Failed? && (one.Panicked? <==> OfUnknownKind(a, rd, graph))
            && (one.Reported? ==> Adds(a, rd, resource, graph, one.grants))
  {
  }

  /** What the loop of `Grants` replies, by the kinds of the principals. */
  lemma {:induction false} ReportAnswers(list: seq<RoleAssignment>, rd: string, resource: ResourceId, graph: Graph)
    ensures Answers(Report(list, rd, resource, graph), list, rd, resource, graph)
  {
    if list == [] {
      assert AddsInTurn([], rd, resource, graph, [], []);
    } else {
      var one, rest := ReportOne(list[0], rd, resource, graph), Report(list[1..], rd, resource, graph);
      OneAdds(list[0], rd, resource, graph);
      ReportAnswers(list[1..], rd, resource, graph);
      assert list == [list[0]] + list[1..];
      if one.Reported? && rest.Reported? {
        var parts :| AddsInTurn(list[1..], rd, resource, graph, parts, rest.grants);
        var all := [one.grants] + parts;
        assert all[1..] == parts;
        assert AddsInTurn(list, rd, resource, graph, all, one.grants + rest.grants);
      }
      PanicsInTurn(list, rd, graph);
    }
  }

  lemma PanicsInTurn(list: seq<RoleAssignment>, rd: string, graph: Graph)
    requires list != []
    ensures (exists a :: a in list && OfUnknownKind(a, rd, graph))
            <==> OfUnknownKind(list[0], rd, graph) || exists a :: a in list[1..] && OfUnknownKind(a, rd, graph)
  {
    assert list == [list[0]] + list[1..];
    if a :| a in list[1..] && OfUnknownKind(a, rd, graph) {
      assert a in list;
    }
    if OfUnknownKind(list[0], rd, graph) {
      assert list[0] in list;
    }
  }

  /** A reported grant is that of some listed assignment of the role. */
  lemma {:induction false} ReportedIsListed(list: seq<RoleAssignment>, rd: string, resource: ResourceId, graph: Graph, g: Grant)
    returns (a: RoleAssignment)
    requires Report(list, rd, resource, graph).Reported? && g in Report(list, rd, resource, graph).grants
    ensures a in list && a.roleDefinitionID == rd && g.entitlement.resource == resource
    ensures g.principal.resource == a.principalID
  {
    if g in ReportOne(list[0], rd, resource, graph).grants {
      a := list[0];
    } else {
      a := ReportedIsListed(list[1..], rd, resource, graph, g);
    }
  }

  lemma FollowedAssociative(a: GrantsReply, b: GrantsReply, c: GrantsReply)
    ensures Followed(Followed(a, b), c) == Followed(a, Followed(b, c))
    ensures Followed(Reported([]), a) == a == Followed(a, Reported([]))
  {
    if a.Reported? {
      assert [] + a.grants == a.grants == a.grants + [];
      if b.Reported? && c.Reported? {
        assert (a.grants + b.grants) + c.grants == a.grants + (b.grants + c.grants);
      }
    }
  }

  lemma {:induction false} ReportConcat(x: seq<RoleAssignment>, y: seq<RoleAssignment>, rd: string, resource: ResourceId, graph: Graph)
    ensures Report(x + y, rd, resource, graph) == Followed(Report(x, rd, resource, graph), Report(y, rd, resource, graph))
  {
    if x == [] {
      assert x + y == y;
      FollowedAssociative(Report(y, rd, resource, graph), Reported([]), Reported([]));
    } else {
      assert (x + y)[0] == x[0] && (x + y)[1..] == x[1..] + y;
      ReportConcat(x[1..], y, rd, resource, graph);
      FollowedAssociative(ReportOne(x[0], rd, resource, graph), Report(x[1..], rd, resource, graph), Report(y, rd, resource, graph));
    }
  }

  /** The loop body of `Grants`: one more assignment. */
  lemma ReportNext(assignments: seq<RoleAssignment>, i: nat, rd: string, resource: ResourceId, graph: Graph)
    requires i < |assignments| && Report(assignments[..i], rd, resource, graph).Reported?
    ensures ReportOne(assignments[i], rd, resource, graph).Panicked? ==> Report(assignments, rd, resource, graph) == Panicked
    ensures Report(assignments[..i + 1], rd, resource, graph) ==
            Followed(Report(assignments[..i], rd, resource, graph), ReportOne(assignments[i], rd, resource, graph))
  {
    var a := assignments[i];
    assert assignments == assignments[..i] + assignments[i..] && assignments[i..][0] == a;
    ReportConcat(assignments[..i], assignments[i..], rd, resource, graph);
    assert assignments[..i + 1] == assignments[..i] + [a] && [a][1..] == [];
    ReportConcat(assignments[..i], [a], rd, resource, graph);
    FollowedAssociative(ReportOne(a, rd, resource, graph), Reported([]), Reported([]));
  }

  method ReportGrants(assignments: seq<RoleAssignment>, roleDefinitionID: string, resource: ResourceId, graph: Graph)
    returns (r: GrantsReply)
    ensures r == Report(assignments, roleDefinitionID, resource, graph)
  {
    var rv := [];
    for i := 0 to |assignments|
      invariant Report(assignments[..i], roleDefinitionID, resource, graph) == Reported(rv)
    {
      ReportNext(assignments, i, roleDefinitionID, resource, graph);
      var assignment := assignments[i];
      if roleDefinitionID != assignment.roleDefinitionID {
        continue;
      }
      var principalType := GetPrincipalType(graph, assignment.principalID);
      if principalType.Err? {
        continue;
      }
      var principalId := PrincipalResource(principalType.value, assignment.principalID);
      if principalId.None? {
        return Panicked;
      }
      rv := rv + [NewGrant(resource, ASSIGNED, principalId.value)];
    }
    assert assignments[..|assignments|] == assignments;
    return Reported(rv);
  }

  // ---- getAssignmentID ----

  /** The name of the first assignment of the principal to the role. */
  function FirstMatch(assignments: seq<RoleAssignment>, b: Binding): Option<string> {
    if assignments == [] then None
    else if assignments[0].principalID == b.principalID && assignments[0].roleDefinitionID == b.roleDefinitionID then
      Some(assignments[0].name)
    else FirstMatch(assignments[1..], b)
  }

  predicate Is(a: RoleAssignment, b: Binding) {
    a.principalID == b.principalID && a.roleDefinitionID == b.roleDefinitionID
  }

  /** The name found belongs to the first matching assignment, and one is found whenever there is one. */
  lemma {:induction false} FirstMatchMeaning(assignments: seq<RoleAssignment>, b: Binding)
    ensures FirstMatch(assignments, b).Some? <==> exists a :: a in assignments && Is(a, b)
    ensures forall i | 0 <= i < |assignments| && Is(assignments[i], b)
                       && (forall j | 0 <= j < i :: !Is(assignments[j], b)) ::
              FirstMatch(assignments, b) == Some(assignments[i].name)
    ensures FirstMatch(assignments, b).Some? ==>
              exists a :: a in assignments && Is(a, b) && FirstMatch(assignments, b) == Some(a.name)
  {
    if assignments != [] {
      FirstMatchMeaning(assignments[1..], b);
      assert assignments == [assignments[0]] + assignments[1..];
      if !Is(assignments[0], b) {
        forall i | 0 <= i < |assignments| && Is(assignments[i], b) && (forall j | 0 <= j < i :: !Is(assignments[j], b))
          ensures FirstMatch(assignments, b) == Some(assignments[i].name)
        {
          assert forall j | 0 <= j < i - 1 :: assignments[1..][j] == assignments[j + 1];
          assert assignments[1..][i - 1] == assignments[i];
        }
      }
    }
  }

  lemma {:induction false} FirstMatchConcat(x: seq<RoleAssignment>, y: seq<RoleAssignment>, b: Binding)
    ensures FirstMatch(x + y, b) == if FirstMatch(x, b).Some? then FirstMatch(x, b) else FirstMatch(y, b)
  {
    if x == [] {
      assert x + y == y;
    } else {
      assert (x + y)[1..] == x[1..] + y;
      FirstMatchConcat(x[1..], y, b);
    }
  }

  /** `getAssignmentID` over a paged listing. */
  function AssignmentID(listing: Listing<RoleAssignment>, b: Binding): Result<string> {
    match FirstMatch(Flatten(listing.Served()), b)
    case Some(name) => Ok(name)
    case None => if listing.Complete() then Err(AssignmentNotFound) else Err(RemoteFailure)
  }

  /** What the search ends with: the name of the first assignment of the principal to the
      role among those served, the failure of a page, or that there is none. */
  lemma AssignmentIDMeaning(listing: Listing<RoleAssignment>, b: Binding)
    ensures var served := Flatten(listing.Served());
            if forall a | a in served :: a.principalID != b.principalID || a.roleDefinitionID != b.roleDefinitionID then
              AssignmentID(listing, b) ==
              Err(if listing.failAt < |listing.pages| then RemoteFailure else AssignmentNotFound)
            else exists i :: 0 <= i < |served| && FirstIs(served, b, i) && AssignmentID(listing, b) == Ok(served[i].name)
  {
    FirstIndex(Flatten(listing.Served()), b);
  }

  /** The assignment at `i` is the first of the binding. */
  ghost predicate FirstIs(list: seq<RoleAssignment>, b: Binding, i: nat)
    requires i < |list|
  {
    && list[i].principalID == b.principalID && list[i].roleDefinitionID == b.roleDefinitionID
    && forall j | 0 <= j < i :: list[j].principalID != b.principalID || list[j].roleDefinitionID != b.roleDefinitionID
  }

  lemma {:induction false} FirstIndex(list: seq<RoleAssignment>, b: Binding)
    ensures FirstMatch(list, b) == None <==>
            forall a | a in list :: a.principalID != b.principalID || a.roleDefinitionID != b.roleDefinitionID
    ensures FirstMatch(list, b).Some? ==> exists i :: 0 <= i < |list| && FirstIs(list, b, i) && FirstMatch(list, b) == Some(list[i].name)
  {
    if list != [] {
      FirstIndex(list[1..], b);
      assert list == [list[0]] + list[1..];
      if list[0].principalID == b.principalID && list[0].roleDefinitionID == b.roleDefinitionID {
        assert FirstIs(list, b, 0);
      } else if i :| 0 <= i < |list[1..]| && FirstIs(list[1..], b, i) && FirstMatch(list[1..], b) == Some(list[1..][i].name) {
        assert list[1..][i] == list[i + 1];
        assert FirstIs(list, b, i + 1);
      }
    }
  }

  /** `fetched` counts the pages asked for. A found name is the first match of the listing,
      however it is split into pages, and no page after the one that holds it is fetched. */
  method GetAssignmentID(listing: Listing<RoleAssignment>, b: Binding) returns (r: Result<string>, fetched: nat)
    ensures r == AssignmentID(listing, b)
    ensures r.Ok? ==> 1 <= fetched <= |listing.Served()|
                      && FirstMatch(listing.pages[fetched - 1], b) == Some(r.value)
                      && FirstMatch(Flatten(listing.pages[..fetched - 1]), b) == None
    ensures r.Err? ==> fetched == if listing.Complete() then |listing.pages| else listing.failAt + 1
  {
    fetched := 0;
    while fetched < |listing.pages|
      invariant 0 <= fetched <= |listing.Served()|
      invariant FirstMatch(Flatten(listing.pages[..fetched]), b) == None
    {
      ghost var before := listing.pages[..fetched];
      if fetched == listing.failAt {
        fetched := fetched + 1;
        return Err(RemoteFailure), fetched;
      }
      var page := listing.pages[fetched];
      fetched := fetched + 1;
      FlattenNext(listing.pages, fetched - 1);
      FirstMatchConcat(Flatten(before), page, b);
      for i := 0 to |page|
        invariant FirstMatch(page, b) == FirstMatch(page[i..], b)
      {
        if page[i].principalID == b.principalID && page[i].roleDefinitionID == b.roleDefinitionID {
          ServedFrom(listing, fetched);
          FirstMatchConcat(Flatten(listing.pages[..fetched]), Flatten(listing.Served()[fetched..]), b);
          return Ok(page[i].name), fetched;
        }
      }
    }
    assert listing.pages[..fetched] == listing.pages;
    return Err(AssignmentNotFound), fetched;
  }
}
