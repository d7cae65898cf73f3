/** Where the builders meet: the same principal, entitlement or identifier seen by two of them. */
module CrossBuilder {
  import opened Wrappers
  import opened Resources
  import opened Pagination
  import Directory
  import GroupSync
  import Apps = EnterpriseApplications
  import Ids = EntitlementIds
  import Paging
  import Race = RoleCacheRace
  import Role

  /** What `getPrincipalType` calls an object that a group lists with these fields. */
  function KindOf(m: GroupSync.Membership): string {
    if m.odataType == Directory.GRAPH_SERVICE_PRINCIPAL then m.servicePrincipalType else m.odataType
  }

  /** A principal that a group sync reports is reported under the same resource by the role
      builders, except a group, which they report as a resource group. */
  lemma SamePrincipalExceptGroups(m: GroupSync.Membership)
    requires GroupSync.MemberType(m).Some?
    ensures var inGroup := ResourceId(GroupSync.MemberType(m).value, m.id);
            var inRole := Directory.PrincipalResource(KindOf(m), m.id);
            && (inRole == Some(inGroup) <==> inGroup.resourceType != GROUP)
            && (inGroup.resourceType == GROUP ==> inRole == Some(ResourceId(RESOURCE_GROUP, m.id)))
  {
  }

  /** A group's app assignment and a nested group membership expand to one entitlement: the
      one that the group's own members grants carry. */
  lemma AppGroupExpands(resource: ResourceId, ara: Apps.AppRoleAssignment, group: GroupSync.Roster, h: Grant)
    requires ara.principalType == "Group" && group.group == ara.principalId
    requires h in GroupSync.MemberGrants(group.group, MEMBERS, group.members)
    ensures Apps.AssignmentGrant(resource, ara).value.value.expandable == [h.entitlement.id]
    ensures h.entitlement.id == NewEntitlementID(ResourceId(GROUP, ara.principalId), MEMBERS)
  {
    var m := GroupSync.MadeForMember(group.group, MEMBERS, group.members, h);
  }

  /** The entitlement ID of every app grant, of either relation, is read back by `Grant` and
      `Revoke` as the relation, the application and, for an assignment, the app role that
      the grant was made for. */
  lemma AppGrantReadBack(resource: ResourceId, ara: Apps.AppRoleAssignment, owner: GroupSync.Membership)
    requires ':' !in resource.resource && ':' !in ara.appRoleId
    ensures var g := Apps.AssignmentGrant(resource, ara).value.value;
            Ids.Unmarshal(Ids.Fields("", "", ""), g.entitlement.id) ==
            (Ids.Fields(ASSIGNMENT, resource.resource, ara.appRoleId), None)
    ensures var r := Apps.OwnerGrant(resource, owner);
            r.Ok? && r.value.Some? ==>
              Ids.Unmarshal(Ids.Fields("", "", ""), r.value.value.entitlement.id) ==
              (Ids.Fields(OWNERS, resource.resource, ""), None)
  {
    Ids.GrantsIdIsMarshalled(resource.resource, ara.appRoleId);
    Ids.MarshalRoundTrip("appRole", resource.resource, ara.appRoleId);
    Ids.MarshalRoundTrip(OWNERS, resource.resource, "");
    OwnerEntitlement(resource, owner);
  }

  lemma OwnerEntitlement(resource: ResourceId, owner: GroupSync.Membership)
    ensures var r := Apps.OwnerGrant(resource, owner);
            r.Ok? && r.value.Some? ==> r.value.value.entitlement.id == Ids.OwnersEntitlementID(resource.resource)
  {
  }

  /** The concurrent machine with one filler leaves the cache that `cacheRoleAssignments`
      leaves on the same listing: of all pages when it finished, of those before the failing
      one when it aborted. */
  lemma SoleFillIsFill(pages: Race.Pages, trace: seq<Race.State>, u: string, c: nat)
    requires Race.IsTrace(pages, trace) && Race.Initial(trace[0]) && |pages(u)| >= 1
    requires Race.Sole(pages, trace[|trace| - 1], u, c)
    requires var phase := trace[|trace| - 1].callers[c].phase; phase.Finished? || phase.Aborted?
    ensures var s := trace[|trace| - 1];
            var failAt := if s.callers[c].phase.Aborted? then s.callers[c].phase.next else |pages(u)|;
            var filled := Role.Filled(map[], u, Paging.Listing(pages(u), failAt));
            (u in s.cache <==> u in filled) && (u in s.cache ==> s.cache[u] == filled[u])
  {
    Race.SoleFiller(pages, trace, u, c);
    var s := trace[|trace| - 1];
    assert pages(u)[..|pages(u)|] == pages(u);
  }
}
