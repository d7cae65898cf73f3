/** The identifiers the connector builds and takes apart: role definition IDs,
    role resource IDs, resource-group role IDs, scopes and group grant IDs. */
module Identifiers {
  import opened Wrappers
  import opened Text
  import opened Resources

  function RoleDefinitionID(subscription: string, role: string): string {
    SubscriptionScope(subscription) + "/" + "providers" + "/" + "Microsoft.Authorization" + "/"
    + "roleDefinitions" + "/" + role
  }

  function SubscriptionScope(subscription: string): string {
    "" + "/" + "subscriptions" + "/" + subscription
  }

  function ResourceGroupScope(subscription: string, resourceGroup: string): string {
    SubscriptionScope(subscription) + "/" + "resourceGroups" + "/" + resourceGroup
  }

  /** `getRoleId`. None is Go's index-out-of-range panic at `arr[2]`. */
  function GetRoleId(id: string): Option<string> {
    if '/' in id then
      var parts := Split(id, '/');
      if |parts| < 3 then None else Some(parts[|parts| - 1] + ":" + parts[2])
    else
      Some("")
  }

  function GetResourceGroupID(name: string, subscription: string, role: string): string {
    name + ":" + subscription + ":" + role
  }

  /** The colon split at the head of `roleBuilder.Grants`: (subscription, role), both
      empty when the ID does not have two parts. */
  function RoleParts(resource: string): (string, string) {
    var parts := Split(resource, ':');
    if |parts| == 2 then (parts[1], parts[0]) else ("", "")
  }

  /** What a provisioning call acts on: a scope, and a role definition. */
  datatype Target = Target(scope: string, roleDefinitionID: string)

  /** The checks and the split at the head of `roleBuilder.Grant` and `Revoke`. */
  function RoleTarget(resource: string): Option<Target> {
    var parts := Split(resource, ':');
    if ':' !in resource || |parts| != 2 then None
    else Some(Target(SubscriptionScope(parts[1]), RoleDefinitionID(parts[1], parts[0])))
  }

  /** The colon split at the head of the resource-group builder's `Grants`:
      (resource group, subscription, role). */
  function ResourceGroupParts(resource: string): (string, string, string) {
    var parts := Split(resource, ':');
    if |parts| == 3 then (parts[0], parts[1], parts[2]) else ("", "", "")
  }

  /** The checks and the split at the head of the resource-group builder's `Grant` and `Revoke`. */
  function ResourceGroupTarget(resource: string): Option<Target> {
    var parts := Split(resource, ':');
    if ':' !in resource || |parts| != 3 then None
    else Some(Target(ResourceGroupScope(parts[1], parts[0]), RoleDefinitionID(parts[1], parts[2])))
  }

  /** `fmtResourceGrant`. */
  function FmtResourceGrant(resource: ResourceId, principal: ResourceId, permission: string): string {
    resource.resourceType + "-grant:" + resource.resource + ":" + principal.resourceType + ":"
    + principal.resource + ":" + permission
  }

  // ---- role definition IDs ----

  /** Three more separator-free segments and a last one behind a path. */
  lemma SplitSegments(path: string, c: string, d: string, e: string, r: string)
    requires '/' !in c && '/' !in d && '/' !in e
    ensures Split(path + "/" + c + "/" + d + "/" + e + "/" + r, '/') == Split(path, '/') + [c, d, e] + Split(r, '/')
  {
    var p1 := path + "/" + c;
    var p2 := p1 + "/" + d;
    var p3 := p2 + "/" + e;
    SplitConcat(path, c, '/');
    SplitConcat(p1, d, '/');
    SplitConcat(p2, e, '/');
    SplitConcat(p3, r, '/');
    SplitCount(c, '/');
    SplitCount(d, '/');
    SplitCount(e, '/');
  }

  lemma SplitHead(a: string, b: string, s: string)
    requires '/' !in a && '/' !in b
    ensures Split(a + "/" + b + "/" + s, '/') == [a, b] + Split(s, '/')
  {
    SplitStep(a, b, '/');
    SplitCount(b, '/');
    SplitConcat(a + "/" + b, s, '/');
  }

  lemma SplitScope(subscription: string)
    ensures Split(SubscriptionScope(subscription), '/') == ["", "subscriptions"] + Split(subscription, '/')
  {
    SplitHead("", "subscriptions", subscription);
  }

  lemma SplitRoleDefinitionID(subscription: string, role: string)
    ensures Split(RoleDefinitionID(subscription, role), '/') ==
            ["", "subscriptions"] + Split(subscription, '/')
            + ["providers", "Microsoft.Authorization", "roleDefinitions"] + Split(role, '/')
  {
    SplitScope(subscription);
    SplitSegments(SubscriptionScope(subscription), "providers", "Microsoft.Authorization", "roleDefinitions", role);
  }

  /** For a role definition ID, `getRoleId` keeps the text after the role's last slash
      and the text before the subscription's first one. */
  lemma RoleIdOfDefinition(subscription: string, role: string)
    ensures var s, r := Split(subscription, '/'), Split(role, '/');
            GetRoleId(RoleDefinitionID(subscription, role)) == Some(r[|r| - 1] + ":" + s[0])
  {
    SplitRoleDefinitionID(subscription, role);
    SplitCount(RoleDefinitionID(subscription, role), '/');
  }

  /** `getRoleId` panics exactly on text with one slash; text without any has the empty ID. */
  lemma RoleIdPanics(id: string)
    ensures GetRoleId(id).None? <==> exists x, y :: id == x + ['/'] + y && '/' !in x && '/' !in y
    ensures '/' !in id ==> GetRoleId(id) == Some("")
  {
    if GetRoleId(id).None? {
      SplitCount(id, '/');
      var parts := Split(id, '/');
      JoinSplit(id, '/');
      assert id == parts[0] + ['/'] + parts[1];
    }
    forall x, y | id == x + ['/'] + y && '/' !in x && '/' !in y
      ensures GetRoleId(id).None?
    {
      SplitConcat(x, y, '/');
      SplitCount(x, '/');
      SplitCount(y, '/');
    }
  }

  ghost predicate Plain(s: string) {
    '/' !in s && ':' !in s
  }

  /** A role resource ID made from a role definition ID. */
  function RoleResource(subscription: string, role: string): string {
    var id := GetRoleId(RoleDefinitionID(subscription, role));
    if id.Some? then id.value else ""
  }

  /** A two-part resource ID is read back exactly when neither part holds a colon. */
  lemma ReadRoleResource(role: string, subscription: string)
    ensures RoleTarget(role + ":" + subscription) ==
            if ':' !in role && ':' !in subscription
            then Some(Target(SubscriptionScope(subscription), RoleDefinitionID(subscription, role))) else None
    ensures ':' !in role && ':' !in subscription ==> RoleParts(role + ":" + subscription) == (subscription, role)
  {
    SplitConcat(role, subscription, ':');
    SplitCount(role, ':');
    SplitCount(subscription, ':');
  }

  /** The role ID round trip: what `Grants`, `Grant` and `Revoke` rebuild from a role's
      resource ID is the role definition it was listed under, exactly when subscription
      and role hold neither slash nor colon. */
  lemma RoleIdRoundTrip(subscription: string, role: string)
    ensures Plain(subscription) && Plain(role) <==>
            RoleTarget(RoleResource(subscription, role)) ==
            Some(Target(SubscriptionScope(subscription), RoleDefinitionID(subscription, role)))
    ensures Plain(subscription) && Plain(role) ==>
              RoleParts(RoleResource(subscription, role)) == (subscription, role)
  {
    var s, r := Split(subscription, '/'), Split(role, '/');
    RoleIdOfDefinition(subscription, role);
    SplitCount(subscription, '/');
    SplitCount(role, '/');
    ReadRoleResource(r[|r| - 1], s[0]);
    if RoleTarget(RoleResource(subscription, role)) ==
       Some(Target(SubscriptionScope(subscription), RoleDefinitionID(subscription, role))) {
      ScopeInjective(s[0], subscription);
      RoleDefinitionInjective(subscription, r[|r| - 1], role);
    }
  }

  lemma DropPrefix(prefix: string, s: string)
    ensures (prefix + s)[|prefix|..] == s
  {
  }

  lemma ScopeInjective(subscription: string, other: string)
    requires SubscriptionScope(subscription) == SubscriptionScope(other)
    ensures subscription == other
  {
    var prefix := "" + "/" + "subscriptions" + "/";
    DropPrefix(prefix, subscription);
    DropPrefix(prefix, other);
  }

  /** Within one subscription, role definition IDs tell roles apart. */
  lemma RoleDefinitionInjective(subscription: string, role: string, other: string)
    ensures RoleDefinitionID(subscription, role) == RoleDefinitionID(subscription, other) <==> role == other
  {
    var prefix := SubscriptionScope(subscription) + "/" + "providers" + "/" + "Microsoft.Authorization" + "/"
                  + "roleDefinitions" + "/";
    DropPrefix(prefix, role);
    DropPrefix(prefix, other);
  }

  /** Hence `getRoleId` is injective on such role definition IDs. */
  lemma RoleIdInjective(subscription: string, role: string, subscription': string, role': string)
    requires Plain(subscription) && Plain(role) && Plain(subscription') && Plain(role')
    requires GetRoleId(RoleDefinitionID(subscription, role)) == GetRoleId(RoleDefinitionID(subscription', role'))
    ensures subscription == subscription' && role == role'
  {
    RoleIdRoundTrip(subscription, role);
    RoleIdRoundTrip(subscription', role');
  }

  // ---- scopes ----

  lemma SplitTail(path: string, c: string, r: string)
    requires '/' !in c
    ensures Split(path + "/" + c + "/" + r, '/') == Split(path, '/') + [c] + Split(r, '/')
  {
    SplitConcat(path, c, '/');
    SplitCount(c, '/');
    SplitConcat(path + "/" + c, r, '/');
  }

  lemma SplitResourceGroupScope(subscription: string, group: string)
    ensures Split(ResourceGroupScope(subscription, group), '/') ==
            ["", "subscriptions"] + Split(subscription, '/') + ["resourceGroups"] + Split(group, '/')
  {
    SplitScope(subscription);
    SplitTail(SubscriptionScope(subscription), "resourceGroups", group);
  }

  /** Calls on different subscriptions or resource groups act at different scopes, and a
      role's scope is never a resource group's. */
  lemma ScopesApart(subscription: string, group: string, subscription': string, group': string)
    requires '/' !in subscription && '/' !in group && '/' !in subscription' && '/' !in group'
    ensures ResourceGroupScope(subscription, group) == ResourceGroupScope(subscription', group')
            <==> subscription == subscription' && group == group'
    ensures SubscriptionScope(subscription) == SubscriptionScope(subscription') <==> subscription == subscription'
    ensures ResourceGroupScope(subscription, group) != SubscriptionScope(subscription')
  {
    SplitResourceGroupScope(subscription, group);
    SplitResourceGroupScope(subscription', group');
    SplitScope(subscription);
    SplitScope(subscription');
    SplitCount(subscription, '/');
    SplitCount(subscription', '/');
    SplitCount(group, '/');
    SplitCount(group', '/');
    var parts := Split(ResourceGroupScope(subscription, group), '/');
    var parts' := Split(ResourceGroupScope(subscription', group'), '/');
    assert parts[2] == subscription && parts[4] == group && |parts| == 5;
    assert parts'[2] == subscription' && parts'[4] == group';
    assert Split(SubscriptionScope(subscription), '/')[2] == subscription;
    assert |Split(SubscriptionScope(subscription'), '/')| == 3 && Split(SubscriptionScope(subscription'), '/')[2] == subscription';
  }

  // ---- grant IDs of the role builders ----

  /** The colon split of a grant ID the SDK makes is that of its five fields, in turn. */
  lemma SplitNewGrantId(resource: ResourceId, permission: string, principal: ResourceId)
    ensures Split(NewGrant(resource, permission, principal).id, ':') ==
            Split(resource.resourceType, ':') + Split(resource.resource, ':') + Split(permission, ':')
            + Split(principal.resourceType, ':') + Split(principal.resource, ':')
  {
    var a := resource.resourceType + ":" + resource.resource;
    var b := a + ":" + permission;
    var c := b + ":" + principal.resourceType;
    SplitConcat(resource.resourceType, resource.resource, ':');
    SplitConcat(a, permission, ':');
    SplitConcat(b, principal.resourceType, ':');
    SplitConcat(c, principal.resource, ':');
  }

  ghost predicate PlainPrincipal(p: ResourceId) {
    ':' !in p.resourceType && ':' !in p.resource
  }

  /** The ID of a role grant tells the subscription, the role and the principal. */
  lemma RoleGrantIdInjective(subscription: string, role: string, p: ResourceId,
                             subscription': string, role': string, p': ResourceId)
    requires Plain(subscription) && Plain(role) && Plain(subscription') && Plain(role')
    requires PlainPrincipal(p) && PlainPrincipal(p')
    requires NewGrant(ResourceId(ROLE, RoleResource(subscription, role)), ASSIGNED, p).id
          == NewGrant(ResourceId(ROLE, RoleResource(subscription', role')), ASSIGNED, p').id
    ensures subscription == subscription' && role == role' && p == p'
  {
    var parts := RoleGrantIdParts(subscription, role, p);
    var parts' := RoleGrantIdParts(subscription', role', p');
    assert parts[1] == parts'[1] && parts[2] == parts'[2] && parts[4] == parts'[4] && parts[5] == parts'[5];
  }

  lemma RoleGrantIdParts(subscription: string, role: string, p: ResourceId) returns (parts: seq<string>)
    requires Plain(subscription) && Plain(role) && PlainPrincipal(p)
    ensures parts == ["role", role, subscription, "assigned", p.resourceType, p.resource]
    ensures Split(NewGrant(ResourceId(ROLE, RoleResource(subscription, role)), ASSIGNED, p).id, ':') == parts
  {
    parts := [ROLE, role, subscription, ASSIGNED, p.resourceType, p.resource];
    RoleResourceParts(subscription, role);
    PlainGrantId(ResourceId(ROLE, RoleResource(subscription, role)), role, subscription, ASSIGNED, p);
  }

  lemma PlainGrantId(resource: ResourceId, a: string, b: string, permission: string, p: ResourceId)
    requires ':' !in resource.resourceType && ':' !in permission && PlainPrincipal(p)
    requires Split(resource.resource, ':') == [a, b]
    ensures Split(NewGrant(resource, permission, p).id, ':') == [resource.resourceType, a, b, permission, p.resourceType, p.resource]
  {
    SplitNewGrantId(resource, permission, p);
    SplitCount(resource.resourceType, ':');
    SplitCount(permission, ':');
    SplitCount(p.resourceType, ':');
    SplitCount(p.resource, ':');
  }

  lemma RoleResourceParts(subscription: string, role: string)
    requires Plain(subscription) && Plain(role)
    ensures Split(RoleResource(subscription, role), ':') == [role, subscription]
  {
    RoleIdOfDefinition(subscription, role);
    SplitCount(subscription, '/');
    SplitCount(role, '/');
    SplitConcat(role, subscription, ':');
    SplitCount(subscription, ':');
    SplitCount(role, ':');
  }

  // ---- resource-group role IDs ----

  /** A resource-group role ID is read back as the triple it was made of exactly when
      no part holds a colon. */
  lemma ResourceGroupIdRoundTrip(name: string, subscription: string, role: string)
    ensures ':' !in name && ':' !in subscription && ':' !in role <==>
            Split(GetResourceGroupID(name, subscription, role), ':') == [name, subscription, role]
    ensures ':' !in name && ':' !in subscription && ':' !in role ==>
              ResourceGroupParts(GetResourceGroupID(name, subscription, role)) == (name, subscription, role)
              && ResourceGroupTarget(GetResourceGroupID(name, subscription, role)) ==
                 Some(Target(ResourceGroupScope(subscription, name), RoleDefinitionID(subscription, role)))
  {
    SplitCount(GetResourceGroupID(name, subscription, role), ':');
    assert GetResourceGroupID(name, subscription, role) == name + [':'] + (subscription + [':'] + role);
    SplitConcat(name, subscription + [':'] + role, ':');
    SplitConcat(subscription, role, ':');
    SplitCount(name, ':');
    SplitCount(subscription, ':');
    SplitCount(role, ':');
  }

  /** Distinct triples of colon-free parts have distinct resource-group role IDs. */
  lemma ResourceGroupIdInjective(name: string, subscription: string, role: string,
                                 name': string, subscription': string, role': string)
    requires ':' !in name && ':' !in subscription && ':' !in role
    requires ':' !in name' && ':' !in subscription' && ':' !in role'
    requires GetResourceGroupID(name, subscription, role) == GetResourceGroupID(name', subscription', role')
    ensures name == name' && subscription == subscription' && role == role'
  {
    ResourceGroupIdRoundTrip(name, subscription, role);
    ResourceGroupIdRoundTrip(name', subscription', role');
  }

  // ---- the texts themselves ----

  lemma ScopePath(subscription: string)
    ensures SubscriptionScope(subscription) == "/subscriptions/" + subscription
  {
    assert "" + "/" + "subscriptions" + "/" == "/subscriptions/";
  }

  lemma Segments(path: string, a: string, b: string, c: string)
    ensures path + "/" + a + "/" + b + "/" + c + "/" == path + ("/" + a + "/" + b + "/" + c + "/")
    ensures path + "/" + a + "/" == path + ("/" + a + "/")
  {
  }

  /** The paths Azure is asked with. */
  lemma Paths(subscription: string, group: string, role: string)
    ensures SubscriptionScope(subscription) == "/subscriptions/" + subscription
    ensures ResourceGroupScope(subscription, group) == "/subscriptions/" + subscription + "/resourceGroups/" + group
    ensures RoleDefinitionID(subscription, role) ==
            "/subscriptions/" + subscription + "/providers/Microsoft.Authorization/roleDefinitions/" + role
  {
    ScopePath(subscription);
    Segments(SubscriptionScope(subscription), "resourceGroups", "", "");
    assert "/" + "resourceGroups" + "/" == "/resourceGroups/";
    Segments(SubscriptionScope(subscription), "providers", "Microsoft.Authorization", "roleDefinitions");
    DefinitionSegments();
  }

  lemma DefinitionSegments()
    ensures "/" + "providers" + "/" + "Microsoft.Authorization" + "/" + "roleDefinitions" + "/"
         == "/providers/Microsoft.Authorization/roleDefinitions/"
  {
    assert "/" + "providers" + "/" == "/providers/";
    assert "/providers/" + "Microsoft.Authorization" + "/" == "/providers/Microsoft.Authorization/";
    assert "/providers/Microsoft.Authorization/" + "roleDefinitions" + "/"
        == "/providers/Microsoft.Authorization/roleDefinitions/";
  }

  /** The IDs the SDK's constructors and `fmtResourceGrant` make. */
  lemma IdTexts(resource: ResourceId, permission: string, p: ResourceId)
    ensures NewEntitlementID(resource, permission) == resource.resourceType + ":" + resource.resource + ":" + permission
    ensures NewGrant(resource, permission, p) ==
            Grant(resource.resourceType + ":" + resource.resource + ":" + permission + ":" + p.resourceType + ":" + p.resource,
                  Entitlement(resource.resourceType + ":" + resource.resource + ":" + permission, resource), p, [])
    ensures FmtResourceGrant(resource, p, permission) ==
            resource.resourceType + "-grant:" + resource.resource + ":" + p.resourceType + ":" + p.resource + ":" + permission
  {
  }

  /** A text of exactly two colon-free parts. */
  ghost predicate TwoParts(resource: string, a: string, b: string) {
    resource == a + [':'] + b && ':' !in a && ':' !in b
  }

  ghost predicate ThreeParts(resource: string, a: string, b: string, c: string) {
    resource == a + [':'] + (b + [':'] + c) && ':' !in a && ':' !in b && ':' !in c
  }

  lemma SplitTwo(resource: string, a: string, b: string)
    requires TwoParts(resource, a, b)
    ensures Split(resource, ':') == [a, b]
  {
    SplitConcat(a, b, ':');
    SplitCount(a, ':');
    SplitCount(b, ':');
  }

  lemma SplitThree(resource: string, a: string, b: string, c: string)
    requires ThreeParts(resource, a, b, c)
    ensures Split(resource, ':') == [a, b, c]
  {
    SplitConcat(a, b + [':'] + c, ':');
    SplitTwo(b + [':'] + c, b, c);
    SplitCount(a, ':');
  }

  lemma PartsOfTwo(resource: string)
    requires |Split(resource, ':')| == 2
    ensures TwoParts(resource, Split(resource, ':')[0], Split(resource, ':')[1]) && ':' in resource
  {
    SplitCount(resource, ':');
    JoinSplit(resource, ':');
    var parts := Split(resource, ':');
    assert resource == parts[0] + [':'] + parts[1];
  }

  lemma PartsOfThree(resource: string)
    requires |Split(resource, ':')| == 3
    ensures var parts := Split(resource, ':'); ThreeParts(resource, parts[0], parts[1], parts[2]) && ':' in resource
  {
    SplitCount(resource, ':');
    JoinSplit(resource, ':');
    var parts := Split(resource, ':');
    JoinStep(parts[0], parts[1..], ':');
    JoinStep(parts[1], parts[2..], ':');
    assert parts == [parts[0]] + parts[1..] && parts[1..] == [parts[1]] + parts[2..] && parts[2..] == [parts[2]];
  }

  /** What the role builder reads from a resource ID: with exactly one colon, a role and its
      subscription; else nothing, which `Grant` and `Revoke` reject and `Grants` reads as
      an empty subscription and role. */
  lemma RoleTargetExactly(resource: string)
    ensures forall role, subscription | TwoParts(resource, role, subscription) ::
              && RoleTarget(resource) == Some(Target(SubscriptionScope(subscription), RoleDefinitionID(subscription, role)))
              && RoleParts(resource) == (subscription, role)
    ensures (forall role, subscription :: !TwoParts(resource, role, subscription)) ==>
              RoleTarget(resource) == None && RoleParts(resource) == ("", "")
  {
    forall role, subscription | TwoParts(resource, role, subscription) ensures Split(resource, ':') == [role, subscription] && ':' in resource {
      SplitTwo(resource, role, subscription);
    }
    if |Split(resource, ':')| == 2 {
      PartsOfTwo(resource);
    }
  }

  /** What the resource-group builder reads: with exactly two colons a resource group, its
      subscription and a role. */
  lemma ResourceGroupTargetExactly(resource: string)
    ensures forall group, subscription, role | ThreeParts(resource, group, subscription, role) ::
              && ResourceGroupTarget(resource) ==
                 Some(Target(ResourceGroupScope(subscription, group), RoleDefinitionID(subscription, role)))
              && ResourceGroupParts(resource) == (group, subscription, role)
    ensures (forall group, subscription, role :: !ThreeParts(resource, group, subscription, role)) ==>
              ResourceGroupTarget(resource) == None && ResourceGroupParts(resource) == ("", "", "")
  {
    forall group, subscription, role | ThreeParts(resource, group, subscription, role)
      ensures Split(resource, ':') == [group, subscription, role] && ':' in resource
    {
      SplitThree(resource, group, subscription, role);
    }
    if |Split(resource, ':')| == 3 {
      PartsOfThree(resource);
    }
  }
}
