/** Resources, entitlements and grants as the connector hands them to the SDK. */
module Resources {
  const USER := "user"
  const GROUP := "group"
  const ROLE := "role"
  const SUBSCRIPTION := "subscription"
  const RESOURCE_GROUP := "resource_group"
  const RESOURCE_GROUP_ROLE := "resource_group_role_assignment"
  const ENTERPRISE_APPLICATION := "enterprise_application"
  const MANAGED_IDENTITY := "managed_identity"

  const OWNERS := "owners"
  const MEMBERS := "members"
  const ASSIGNED := "assigned"
  const ASSIGNMENT := "assignment"

  datatype ResourceId = ResourceId(resourceType: string, resource: string)

  datatype Entitlement = Entitlement(id: string, resource: ResourceId)

  /** `expandable` holds the entitlement IDs of a GrantExpandable annotation. */
  datatype Grant = Grant(id: string, entitlement: Entitlement, principal: ResourceId, expandable: seq<string>)

  function NewEntitlementID(resource: ResourceId, permission: string): string {
    resource.resourceType + ":" + resource.resource + ":" + permission
  }

  /** The SDK's NewGrant for a principal that is not nil. */
  function NewGrant(resource: ResourceId, permission: string, principal: ResourceId): Grant {
    var entitlement := Entitlement(NewEntitlementID(resource, permission), resource);
    Grant(entitlement.id + ":" + principal.resourceType + ":" + principal.resource, entitlement, principal, [])
  }

  /** No two of the grants have one ID. */
  ghost predicate DistinctIds(grants: seq<Grant>) {
    forall i, j | 0 <= i < j < |grants| :: grants[i].id != grants[j].id
  }

  lemma PairIn(s: seq<Grant>, i: nat, j: nat)
    requires i < j < |s|
    ensures multiset{s[i], s[j]} <= multiset(s)
  {
    assert s == s[..i] + [s[i]] + s[i + 1..j] + [s[j]] + s[j + 1..];
  }

  lemma Without(s: seq<Grant>, i: nat)
    requires i < |s|
    ensures multiset(s[..i] + s[i + 1..]) == multiset(s) - multiset{s[i]}
  {
    assert s == s[..i] + ([s[i]] + s[i + 1..]);
  }

  lemma PairAt(s: seq<Grant>, x: Grant, y: Grant) returns (i: nat, j: nat)
    requires multiset{x, y} <= multiset(s)
    ensures i < |s| && j < |s| && i != j && s[i] == x && s[j] == y
  {
    assert x in multiset(s);
    i :| i < |s| && s[i] == x;
    Without(s, i);
    var rest := s[..i] + s[i + 1..];
    assert multiset(rest)[y] >= 1;
    assert y in rest;
    var k :| 0 <= k < |rest| && rest[k] == y;
    j := if k < i then k else k + 1;
  }

  /** The order of the grants does not matter. */
  lemma DistinctPermuted(a: seq<Grant>, b: seq<Grant>)
    requires multiset(a) == multiset(b) && DistinctIds(a)
    ensures DistinctIds(b)
  {
    forall i, j | 0 <= i < j < |b| ensures b[i].id != b[j].id {
      PairIn(b, i, j);
      var i', j' := PairAt(a, b[i], b[j]);
    }
  }
}
