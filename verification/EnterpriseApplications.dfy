/** The enterprise-application builder: `List` caches every application it returns, and
    `Entitlements` and the assignment branch of `Grants` read that cache. */
module EnterpriseApplications {
  import opened Wrappers
  import opened Resources
  import opened Paging
  import opened Slices
  import opened Pagination
  import opened EntitlementIds
  import opened GraphClient
  import GroupSync

  datatype AppRole = AppRole(id: string, allowedMemberTypes: seq<string>, value: string, displayName: string)

  datatype AppRoleAssignment = AppRoleAssignment(id: string, appRoleId: string, principalId: string, principalType: string)

  datatype ServicePrincipal = ServicePrincipal(id: string, owner: string, appRoles: seq<AppRole>,
                                               appRolesAssignedTo: seq<AppRoleAssignment>)

  type Cache = map<string, ServicePrincipal>

  /** What Graph answers to a query of service principals. */
  datatype AppsReply = Apps(value: seq<ServicePrincipal>, nextLink: string) | AppsBroken

  /** Graph as this builder sees it during one call. `refuses` says which applications
      cannot be made into a resource. */
  datatype Tenant = Tenant(
    apps: string -> AppsReply,
    firstURL: string,
    refuses: ServicePrincipal -> bool,
    members: string -> Http<GroupSync.MemberPage>,
    ownersURL: string -> string,
    assignedURL: string -> string)

  const DEFAULT_APP_ROLE := "00000000-0000-0000-0000-000000000000"

  // ---- List ----

  /** The principals that belong to one of the organizations. */
  function Owned(organizationIDs: seq<string>, value: seq<ServicePrincipal>): seq<ServicePrincipal> {
    if value == [] then []
    else
      var last := value[|value| - 1];
      Owned(organizationIDs, value[..|value| - 1]) + if last.owner in organizationIDs then [last] else []
  }

  /** The cache after storing the principals one after the other. */
  function Stored(cache: Cache, apps: seq<ServicePrincipal>): Cache {
    if apps == [] then cache
    else Stored(cache, apps[..|apps| - 1])[apps[|apps| - 1].id := apps[|apps| - 1]]
  }

  function AppResource(tenant: Tenant, app: ServicePrincipal): Result<Option<ResourceId>> {
    if tenant.refuses(app) then Err(RemoteFailure) else Ok(Some(ResourceId(ENTERPRISE_APPLICATION, app.id)))
  }

  datatype AppPage = AppPage(apps: seq<ResourceId>, next: Token)

  /** The applications a call of `List` caches. */
  function Fetched(organizationIDs: seq<string>, tenant: Tenant, token: Token): seq<ServicePrincipal> {
    if token.Corrupt? then []
    else
      var stack := Parsed(token, USER, "");
      var url := stack[|stack| - 1].token;
      match tenant.apps(if url == "" then tenant.firstURL else url)
      case AppsBroken => []
      case Apps(value, _) => Owned(organizationIDs, value)
  }

  /** What a call of `List` returns. */
  function ListReply(organizationIDs: seq<string>, tenant: Tenant, token: Token): Result<AppPage> {
    if token.Corrupt? then Err(CorruptToken)
    else
      var stack := Parsed(token, USER, "");
      var url := stack[|stack| - 1].token;
      match tenant.apps(if url == "" then tenant.firstURL else url)
      case AppsBroken => Err(RemoteFailure)
      case Apps(value, nextLink) =>
        match Converted(Owned(organizationIDs, value), app => AppResource(tenant, app))
        case Err(e) => Err(e)
        case Ok(apps) => Ok(AppPage(apps, TokenOf(Advanced(stack, nextLink))))
  }

  // ---- Entitlements ----

  datatype Entry = Entry(id: string, slug: string)

  predicate AllowsUsers(role: AppRole) {
    "User" in role.allowedMemberTypes
  }

  function RoleEntries(resource: string, roles: seq<AppRole>): seq<Entry> {
    if roles == [] then []
    else
      var last := roles[|roles| - 1];
      RoleEntries(resource, roles[..|roles| - 1])
      + if AllowsUsers(last)
        then [Entry(AssignmentEntitlementID(resource, last.id), if last.value == "" then last.displayName else last.value)]
        else []
  }

  /** The owners entitlement, the default assignment, and one entitlement for each app role
      that users may hold, in order. None is the nil dereference on an uncached application. */
  function Emitted(cache: Cache, resource: string): Option<seq<Entry>> {
    if resource !in cache then None
    else Some([Entry(OwnersEntitlementID(resource), "owner"),
               Entry(AssignmentEntitlementID(resource, DEFAULT_APP_ROLE), "assigned")]
              + RoleEntries(resource, cache[resource].appRoles))
  }

  // ---- Grants ----

  const APPLICATIONS := "applications/"

  function Trimmed(resource: string): string {
    if APPLICATIONS <= resource then resource[|APPLICATIONS|..] else resource
  }

  function AssignmentGrant(resource: ResourceId, ara: AppRoleAssignment): Result<Option<Grant>> {
    var kind := match ara.principalType
      case "User" => USER
      case "Group" => GROUP
      case "ServicePrincipal" => MANAGED_IDENTITY
      case _ => "";
    Ok(Some(Grant(ara.id, Entitlement(AssignmentEntitlementID(resource.resource, ara.appRoleId), resource),
                  ResourceId(kind, ara.principalId),
                  if ara.principalType == "Group" then [GroupSync.GroupEntitlementID(ara.principalId, MEMBERS)] else [])))
  }

  function OwnerGrant(resource: ResourceId, m: GroupSync.Membership): Result<Option<Grant>> {
    var entitlement := Entitlement(OwnersEntitlementID(resource.resource), resource);
    match m.odataType
    case "#microsoft.graph.user" => Ok(Some(Grant(m.id, entitlement, ResourceId(USER, m.id), [])))
    case "#microsoft.graph.servicePrincipal" =>
      (match m.servicePrincipalType
       case "Application" => Ok(Some(Grant(m.id, entitlement, ResourceId(ENTERPRISE_APPLICATION, m.id), [])))
       case "ManagedIdentity" => Ok(Some(Grant(m.id, entitlement, ResourceId(MANAGED_IDENTITY, m.id), [])))
       case _ => Ok(None))
    case _ => Err(UnknownMembership)
  }

  datatype GrantsReply = GrantsPage(grants: seq<Grant>, next: Token) | GrantsFailed(error: Error) | GrantsPanicked

  function ToReply(grants: Result<seq<Grant>>, next: Token): GrantsReply {
    match grants
    case Err(e) => GrantsFailed(e)
    case Ok(g) => GrantsPage(g, next)
  }

  function OpenedApp(tenant: Tenant, resource: string, token: Token): seq<PageState> {
    if StackOf(token) != [] then StackOf(token)
    else [PageState(tenant.ownersURL(Trimmed(resource)), OWNERS, ""),
          PageState(tenant.assignedURL(Trimmed(resource)), ASSIGNMENT, "")]
  }

  /** `Grants` on an application. */
  function AppGrants(tenant: Tenant, cache: Cache, resource: ResourceId, token: Token): GrantsReply {
    if token.Corrupt? then GrantsFailed(CorruptToken)
    else
      var rid := if StackOf(token) == [] then resource.(resource := Trimmed(resource.resource)) else resource;
      var stack := OpenedApp(tenant, resource.resource, token);
      var ps := stack[|stack| - 1];
      if ps.resourceTypeID == ASSIGNMENT then
        if rid.resource !in cache then GrantsPanicked
        else ToReply(Converted(cache[rid.resource].appRolesAssignedTo, ara => AssignmentGrant(rid, ara)), NoToken)
      else if ps.resourceTypeID == OWNERS then OwnersReply(tenant, rid, stack)
      else GrantsFailed(UnknownPageKind)
  }

  /** The owners of an application, as one page's grants. */
  function OwnerGrants(resource: ResourceId, members: seq<GroupSync.Membership>): Result<seq<Grant>> {
    Converted(members, m => OwnerGrant(resource, m))
  }

  /** The owners branch of `Grants`. */
  function OwnersReply(tenant: Tenant, rid: ResourceId, stack: seq<PageState>): GrantsReply
    requires stack != []
  {
    match Query(tenant.members(stack[|stack| - 1].token))
    case Missing => GrantsPage([], NoToken)
    case Broken => GrantsFailed(RemoteFailure)
    case Answer(page) => ToReply(OwnerGrants(rid, page.members), TokenOf(Advanced(stack, page.nextLink)))
  }

  class EnterpriseApplicationsBuilder {
    const organizationIDs: seq<string>
    var cache: Cache

    constructor (organizationIDs: seq<string>)
      ensures this.organizationIDs == organizationIDs && cache == map[]
    {
      this.organizationIDs := organizationIDs;
      this.cache := map[];
    }

    method CacheSet(id: string, value: ServicePrincipal)
      modifies this
      ensures cache == old(cache)[id := value]
    {
      cache := cache[id := value];
    }

    method CacheGet(id: string) returns (value: Option<ServicePrincipal>)
      ensures value == if id in cache then Some(cache[id]) else None
    {
      value := if id in cache then Some(cache[id]) else None;
    }

    /** The loop of `List` over the principals of one response. */
    method CacheOwned(value: seq<ServicePrincipal>) returns (applicationsOwned: seq<ServicePrincipal>)
      modifies this
      ensures applicationsOwned == Owned(organizationIDs, value)
      ensures cache == Stored(old(cache), applicationsOwned)
    {
      applicationsOwned := [];
      for i := 0 to |value|
        invariant applicationsOwned == Owned(organizationIDs, value[..i])
        invariant cache == Stored(old(cache), applicationsOwned)
      {
        var sp := value[i];
        assert value[..i + 1][..i] == value[..i];
        if sp.owner in organizationIDs {
          CacheSet(sp.id, sp);
          assert (applicationsOwned + [sp])[..|applicationsOwned|] == applicationsOwned;
          applicationsOwned := applicationsOwned + [sp];
        } else {
          assert applicationsOwned + [] == applicationsOwned;
        }
      }
      assert value[..|value|] == value;
    }

    method List(tenant: Tenant, token: Token) returns (r: Result<AppPage>)
      modifies this
      ensures cache == Stored(old(cache), Fetched(organizationIDs, tenant, token))
      ensures r == ListReply(organizationIDs, tenant, token)
    {
      var bag := new Bag();
      var err := ParsePageToken(bag, token, USER, "");
      if err.Some? {
        return Err(err.value);
      }
      var current := bag.Current();
      var reqURL := current.value.token;
      if reqURL == "" {
        reqURL := tenant.firstURL;
      }
      var resp := tenant.apps(reqURL);
      if resp.AppsBroken? {
        return Err(RemoteFailure);
      }
      var applicationsOwned := CacheOwned(resp.value);
      var entApps := ConvertErr(applicationsOwned, app => AppResource(tenant, app));
      if entApps.Err? {
        return Err(entApps.error);
      }
      var pageToken := bag.NextToken(resp.nextLink);
      return Ok(AppPage(entApps.value, pageToken));
    }

    /** None is the nil dereference. Marshalling cannot fail for the two types used. */
    method Entitlements(resource: ResourceId) returns (entries: Option<seq<Entry>>)
      ensures entries == Emitted(cache, resource.resource)
    {
      GrantsIdIsMarshalled(resource.resource, DEFAULT_APP_ROLE);
      var ownersEntid := new EntitlementId(OWNERS, resource.resource, "");
      var defaultAssignment := new EntitlementId("appRole", resource.resource, DEFAULT_APP_ROLE);
      var ownersId := ownersEntid.MarshalString();
      var defaultId := defaultAssignment.MarshalString();
      var rv := [Entry(ownersId.value, "owner"), Entry(defaultId.value, "assigned")];
      ghost var fixed := rv;
      var servicePrincipal := CacheGet(resource.resource);
      if servicePrincipal.None? {
        return None;
      }
      var roles := servicePrincipal.value.appRoles;
      for i := 0 to |roles|
        invariant rv == fixed + RoleEntries(resource.resource, roles[..i])
      {
        var appRole := roles[i];
        assert roles[..i + 1][..i] == roles[..i];
        var usersAllowed := false;
        var j := 0;
        while j < |appRole.allowedMemberTypes|
          invariant 0 <= j <= |appRole.allowedMemberTypes|
          invariant !usersAllowed && "User" !in appRole.allowedMemberTypes[..j]
        {
          if appRole.allowedMemberTypes[j] == "User" {
            usersAllowed := true;
            break;
          }
          j := j + 1;
        }
        assert usersAllowed == AllowsUsers(appRole);
        if !usersAllowed {
          continue;
        }
        var slug := appRole.value;
        if slug == "" {
          slug := appRole.displayName;
        }
        var id := new EntitlementId("appRole", resource.resource, appRole.id);
        GrantsIdIsMarshalled(resource.resource, appRole.id);
        var idString := id.MarshalString();
        rv := rv + [Entry(idString.value, slug)];
      }
      assert roles[..|roles|] == roles;
      return Some(rv);
    }

    method Grants(tenant: Tenant, resource: ResourceId, token: Token) returns (r: GrantsReply)
      ensures r == AppGrants(tenant, cache, resource, token)
    {
      var b := new Bag();
      var err := b.Unmarshal(token);
      if err.Some? {
        return GrantsFailed(err.value);
      }
      var rid := resource;
      var current := b.Current();
      if current.None? {
        rid := resource.(resource := Trimmed(resource.resource));
        b.Push(PageState(tenant.ownersURL(rid.resource), OWNERS, ""));
        b.Push(PageState(tenant.assignedURL(rid.resource), ASSIGNMENT, ""));
      }
      assert b.Stack() == OpenedApp(tenant, resource.resource, token);
      var ps := b.Current();
      if ps.value.resourceTypeID == ASSIGNMENT {
        var app := CacheGet(rid.resource);
        if app.None? {
          return GrantsPanicked;
        }
        var grants := ConvertErr(app.value.appRolesAssignedTo, ara => AssignmentGrant(rid, ara));
        return ToReply(grants, NoToken);
      } else if ps.value.resourceTypeID == OWNERS {
        var resp := Query(tenant.members(ps.value.token));
        if resp.Missing? {
          return GrantsPage([], NoToken);
        }
        if resp.Broken? {
          return GrantsFailed(RemoteFailure);
        }
        var pageToken := b.NextToken(resp.value.nextLink);
        var grants := ConvertErr(resp.value.members, m => OwnerGrant(rid, m));
        return ToReply(grants, pageToken);
      } else {
        return GrantsFailed(UnknownPageKind);
      }
    }
  }

  // ---- the cache over histories of List calls ----

  /** A call of `List`, with what Graph holds at the time. */
  datatype ListCall = ListCall(tenant: Tenant, token: Token)

  /** The cache after the calls, in turn. */
  function CacheAfter(organizationIDs: seq<string>, cache: Cache, calls: seq<ListCall>): Cache
    decreases |calls|
  {
    if calls == [] then cache
    else CacheAfter(organizationIDs, Stored(cache, Fetched(organizationIDs, calls[0].tenant, calls[0].token)), calls[1..])
  }

  /** Every application the calls listed, in order. */
  function AllFetched(organizationIDs: seq<string>, calls: seq<ListCall>): seq<ServicePrincipal> {
    if calls == [] then []
    else Fetched(organizationIDs, calls[0].tenant, calls[0].token) + AllFetched(organizationIDs, calls[1..])
  }

  predicate Succeeds(organizationIDs: seq<string>, call: ListCall) {
    ListReply(organizationIDs, call.tenant, call.token).Ok?
  }

  /** The applications the calls returned. */
  function Returned(organizationIDs: seq<string>, calls: seq<ListCall>): seq<ResourceId> {
    if calls == [] then []
    else (match ListReply(organizationIDs, calls[0].tenant, calls[0].token) case Ok(page) => page.apps case Err(_) => [])
         + Returned(organizationIDs, calls[1..])
  }

  /** The last application of the list with the ID. */
  function Latest(apps: seq<ServicePrincipal>, id: string): Option<ServicePrincipal> {
    if apps == [] then None
    else if apps[|apps| - 1].id == id then Some(apps[|apps| - 1])
    else Latest(apps[..|apps| - 1], id)
  }

  lemma {:induction false} StoredConcat(cache: Cache, a: seq<ServicePrincipal>, b: seq<ServicePrincipal>)
    ensures Stored(cache, a + b) == Stored(Stored(cache, a), b)
  {
    if b == [] {
      assert a + b == a;
    } else {
      assert (a + b)[..|a + b| - 1] == a + b[..|b| - 1];
      StoredConcat(cache, a, b[..|b| - 1]);
    }
  }

  lemma {:induction false} CacheIsStored(organizationIDs: seq<string>, cache: Cache, calls: seq<ListCall>)
    ensures CacheAfter(organizationIDs, cache, calls) == Stored(cache, AllFetched(organizationIDs, calls))
    decreases |calls|
  {
    if calls != [] {
      var apps := Fetched(organizationIDs, calls[0].tenant, calls[0].token);
      CacheIsStored(organizationIDs, Stored(cache, apps), calls[1..]);
      StoredConcat(cache, apps, AllFetched(organizationIDs, calls[1..]));
    }
  }

  lemma {:induction false} StoredIsLatest(apps: seq<ServicePrincipal>)
    ensures forall id ::
              (id in Stored(map[], apps) <==> Latest(apps, id).Some?)
              && (id in Stored(map[], apps) ==> Latest(apps, id) == Some(Stored(map[], apps)[id]))
  {
    if apps != [] {
      StoredIsLatest(apps[..|apps| - 1]);
    }
  }

  lemma {:induction false} LatestMeaning(apps: seq<ServicePrincipal>, id: string)
    ensures Latest(apps, id).Some? <==> exists i :: 0 <= i < |apps| && apps[i].id == id
    ensures Latest(apps, id).Some? ==> Latest(apps, id).value.id == id && Latest(apps, id).value in apps
  {
    if apps != [] {
      LatestMeaning(apps[..|apps| - 1], id);
      assert apps == apps[..|apps| - 1] + [apps[|apps| - 1]];
    }
  }

  lemma {:induction false} OwnedMeaning(organizationIDs: seq<string>, value: seq<ServicePrincipal>)
    ensures forall sp :: sp in Owned(organizationIDs, value) <==> sp in value && sp.owner in organizationIDs
  {
    if value != [] {
      OwnedMeaning(organizationIDs, value[..|value| - 1]);
      assert value == value[..|value| - 1] + [value[|value| - 1]];
    }
  }

  lemma FetchedOwned(organizationIDs: seq<string>, tenant: Tenant, token: Token)
    ensures forall sp | sp in Fetched(organizationIDs, tenant, token) :: sp.owner in organizationIDs
  {
    if Fetched(organizationIDs, tenant, token) != [] {
      var stack := Parsed(token, USER, "");
      var url := stack[|stack| - 1].token;
      OwnedMeaning(organizationIDs, tenant.apps(if url == "" then tenant.firstURL else url).value);
    }
  }

  lemma {:induction false} AllOwned(organizationIDs: seq<string>, calls: seq<ListCall>)
    ensures forall sp | sp in AllFetched(organizationIDs, calls) :: sp.owner in organizationIDs
  {
    if calls != [] {
      AllOwned(organizationIDs, calls[1..]);
      FetchedOwned(organizationIDs, calls[0].tenant, calls[0].token);
    }
  }

  /** A successful conversion returns the IDs of what was converted, in order. */
  lemma {:induction false} ConvertedIds(tenant: Tenant, apps: seq<ServicePrincipal>)
    requires Converted(apps, app => AppResource(tenant, app)).Ok?
    ensures var ids := Converted(apps, app => AppResource(tenant, app)).value;
            |ids| == |apps| && forall i | 0 <= i < |apps| :: ids[i] == ResourceId(ENTERPRISE_APPLICATION, apps[i].id)
  {
    if apps != [] {
      ConvertedIds(tenant, apps[1..]);
    }
  }

  predicate Has(apps: seq<ServicePrincipal>, id: string) {
    exists i :: 0 <= i < |apps| && apps[i].id == id
  }

  lemma HasConcat(a: seq<ServicePrincipal>, b: seq<ServicePrincipal>, id: string)
    ensures Has(a + b, id) <==> Has(a, id) || Has(b, id)
  {
    if i :| 0 <= i < |a| && a[i].id == id { assert (a + b)[i].id == id; }
    if i :| 0 <= i < |b| && b[i].id == id { assert (a + b)[|a| + i].id == id; }
  }

  lemma PageReturns(organizationIDs: seq<string>, tenant: Tenant, token: Token, id: string)
    requires ListReply(organizationIDs, tenant, token).Ok?
    ensures ResourceId(ENTERPRISE_APPLICATION, id) in ListReply(organizationIDs, tenant, token).value.apps
            <==> Has(Fetched(organizationIDs, tenant, token), id)
  {
    var apps, ids := Fetched(organizationIDs, tenant, token), ListReply(organizationIDs, tenant, token).value.apps;
    ConvertedIds(tenant, apps);
    if i :| 0 <= i < |apps| && apps[i].id == id { assert ids[i] in ids; }
    if ResourceId(ENTERPRISE_APPLICATION, id) in ids {
      var i :| 0 <= i < |ids| && ids[i] == ResourceId(ENTERPRISE_APPLICATION, id);
      assert apps[i].id == id;
    }
  }

  /** Every returned application was listed; when every call succeeds, every listed one is returned. */
  lemma {:induction false} ReturnedIsFetched(organizationIDs: seq<string>, calls: seq<ListCall>, id: string)
    ensures ResourceId(ENTERPRISE_APPLICATION, id) in Returned(organizationIDs, calls) ==>
              Has(AllFetched(organizationIDs, calls), id)
    ensures (forall c | c in calls :: Succeeds(organizationIDs, c)) && Has(AllFetched(organizationIDs, calls), id) ==>
              ResourceId(ENTERPRISE_APPLICATION, id) in Returned(organizationIDs, calls)
  {
    if calls != [] {
      ReturnedIsFetched(organizationIDs, calls[1..], id);
      HasConcat(Fetched(organizationIDs, calls[0].tenant, calls[0].token), AllFetched(organizationIDs, calls[1..]), id);
      assert calls[0] in calls;
      if Succeeds(organizationIDs, calls[0]) {
        PageReturns(organizationIDs, calls[0].tenant, calls[0].token, id);
      }
    }
  }

  /** Over every history of `List` calls, each with what Graph holds at the time, in any order
      and with any failures: each cached application is the latest one listed under its
      key, has that ID, and belongs to one of the organizations; every returned application
      is cached; and when all calls succeeded, what was returned and what is cached are the same. */
  lemma {:induction false} ListedIsCached(organizationIDs: seq<string>, calls: seq<ListCall>, id: string)
    ensures var cache := CacheAfter(organizationIDs, map[], calls);
            var app := ResourceId(ENTERPRISE_APPLICATION, id);
            && (id in cache ==>
                  && Latest(AllFetched(organizationIDs, calls), id) == Some(cache[id])
                  && cache[id].id == id && cache[id].owner in organizationIDs)
            && (app in Returned(organizationIDs, calls) ==> id in cache)
            && ((forall c | c in calls :: Succeeds(organizationIDs, c)) ==>
                  (app in Returned(organizationIDs, calls) <==> id in cache))
  {
    var apps := AllFetched(organizationIDs, calls);
    CacheIsStored(organizationIDs, map[], calls);
    StoredIsLatest(apps);
    LatestMeaning(apps, id);
    AllOwned(organizationIDs, calls);
    ReturnedIsFetched(organizationIDs, calls, id);
  }

  // ---- a run of List ----

  /** The principals of the organizations, in order. */
  function Kept(organizationIDs: seq<string>, value: seq<ServicePrincipal>): seq<ServicePrincipal> {
    if value == [] then []
    else (if value[0].owner in organizationIDs then [value[0]] else []) + Kept(organizationIDs, value[1..])
  }

  lemma {:induction false} KeptConcat(organizationIDs: seq<string>, a: seq<ServicePrincipal>, b: seq<ServicePrincipal>)
    ensures Kept(organizationIDs, a + b) == Kept(organizationIDs, a) + Kept(organizationIDs, b)
  {
    if a == [] {
      assert a + b == b;
    } else {
      var one := if a[0].owner in organizationIDs then [a[0]] else [];
      assert (a + b)[0] == a[0] && (a + b)[1..] == a[1..] + b;
      KeptConcat(organizationIDs, a[1..], b);
      assert one + (Kept(organizationIDs, a[1..]) + Kept(organizationIDs, b)) == (one + Kept(organizationIDs, a[1..])) + Kept(organizationIDs, b);
    }
  }

  lemma {:induction false} OwnedIsKept(organizationIDs: seq<string>, value: seq<ServicePrincipal>)
    ensures Owned(organizationIDs, value) == Kept(organizationIDs, value)
  {
    if value != [] {
      var before, last := value[..|value| - 1], value[|value| - 1];
      OwnedIsKept(organizationIDs, before);
      assert value == before + [last] && [last][1..] == [];
      KeptConcat(organizationIDs, before, [last]);
    }
  }

  function IdsOf(apps: seq<ServicePrincipal>): seq<ResourceId> {
    seq(|apps|, i requires 0 <= i < |apps| => ResourceId("enterprise_application", apps[i].id))
  }

  lemma {:induction false} ConvertedExactly(tenant: Tenant, apps: seq<ServicePrincipal>)
    ensures var r := Converted(apps, app => AppResource(tenant, app));
            r == if AnyRefused(tenant, apps) then Err(RemoteFailure) else Ok(IdsOf(apps))
  {
    if apps == [] {
      assert IdsOf(apps) == [];
    } else {
      var rest := apps[1..];
      ConvertedExactly(tenant, rest);
      assert forall i | 0 <= i < |rest| :: rest[i] == apps[i + 1];
      assert AnyRefused(tenant, apps) <==> tenant.refuses(apps[0]) || AnyRefused(tenant, rest) by {
        if i :| 0 < i < |apps| && tenant.refuses(apps[i]) { assert tenant.refuses(rest[i - 1]); }
      }
      assert IdsOf(apps) == [ResourceId("enterprise_application", apps[0].id)] + IdsOf(rest);
    }
  }

  /** The URL a call asks for: that of the token's current state, or of the first page. */
  function Asked(tenant: Tenant, token: Token): string {
    if token.Saved? && token.top.token != "" then token.top.token else tenant.firstURL
  }

  /** The token after a page: with the page's link in the current state, or of what is below. */
  function Onward(token: Token, link: string): Token {
    match token
    case Saved(below, top) =>
      if link != "" then Saved(below, PageState(link, top.resourceTypeID, top.resourceID)) else TokenOf(below)
    case _ => if link != "" then Saved([], PageState(link, "user", "")) else NoToken
  }

  lemma OnwardIsNext(token: Token, link: string)
    requires !token.Corrupt?
    ensures TokenOf(Advanced(Parsed(token, USER, ""), link)) == Onward(token, link)
  {
    var stack := Parsed(token, USER, "");
    var below := if token.Saved? then token.below else [];
    assert stack[..|stack| - 1] == below;
    if link != "" {
      assert Advanced(stack, link) == below + [stack[|stack| - 1].(token := link)];
    }
  }

  /** Some principal of the list cannot be made into a resource. */
  predicate AnyRefused(tenant: Tenant, apps: seq<ServicePrincipal>) {
    exists i :: 0 <= i < |apps| && tenant.refuses(apps[i])
  }

  /** One call of `List`. The owned principals of the page are cached even when one cannot be
      made into a resource, which fails the call; otherwise they are returned, in order, and
      the token moves on to the page's link. */
  lemma ListExactly(organizationIDs: seq<string>, tenant: Tenant, token: Token)
    requires !token.Corrupt?
    ensures var answer := tenant.apps(Asked(tenant, token));
            var fetched, reply := Fetched(organizationIDs, tenant, token), ListReply(organizationIDs, tenant, token);
            if answer.AppsBroken? then fetched == [] && reply == Err(RemoteFailure)
            else
              && fetched == Kept(organizationIDs, answer.value)
              && reply == if AnyRefused(tenant, fetched) then Err(RemoteFailure)
                          else Ok(AppPage(IdsOf(fetched), Onward(token, answer.nextLink)))
  {
    var stack := Parsed(token, USER, "");
    assert Asked(tenant, token) == if stack[|stack| - 1].token == "" then tenant.firstURL else stack[|stack| - 1].token;
    var answer := tenant.apps(Asked(tenant, token));
    if answer.Apps? {
      OwnedIsKept(organizationIDs, answer.value);
      ConvertedExactly(tenant, Kept(organizationIDs, answer.value));
      OnwardIsNext(token, answer.nextLink);
    }
  }

  /** A token that does not decode fails the call, and nothing is cached. */
  lemma CorruptTokenFails(organizationIDs: seq<string>, tenant: Tenant, cache: Cache, resource: ResourceId)
    ensures ListReply(organizationIDs, tenant, Corrupt) == Err(CorruptToken) && Fetched(organizationIDs, tenant, Corrupt) == []
    ensures AppGrants(tenant, cache, resource, Corrupt) == GrantsFailed(CorruptToken)
  {
  }

  /** How a run of `List` stands: over, waiting to be resumed, or ended by an error. */
  datatype ListEnd = Over | Waiting(next: Token) | Broke(error: Error)

  datatype ListRun = ListRun(apps: seq<ResourceId>, cache: Cache, end: ListEnd)

  /** What one call of `List` caches and replies. */
  datatype Called = Called(fetched: seq<ServicePrincipal>, reply: Result<AppPage>)

  /** Making calls from `token` until one replies the empty token or an error, one for each
      of the tenants at most: what Graph holds at that call. */
  function RunCalls(call: (Tenant, Token) -> Called, cache: Cache, token: Token, tenants: seq<Tenant>): ListRun
    decreases |tenants|
  {
    if tenants == [] then ListRun([], cache, Waiting(token))
    else
      var called := call(tenants[0], token);
      var after := Stored(cache, called.fetched);
      match called.reply
      case Err(e) => ListRun([], after, Broke(e))
      case Ok(page) =>
        if page.next.NoToken? then ListRun(page.apps, after, Over)
        else
          var rest := RunCalls(call, after, page.next, tenants[1..]);
          rest.(apps := page.apps + rest.apps)
  }

  /** A run of `List`. */
  function RunList(organizationIDs: seq<string>, cache: Cache, token: Token, tenants: seq<Tenant>): ListRun {
    RunCalls((tenant, token) => Called(Fetched(organizationIDs, tenant, token), ListReply(organizationIDs, tenant, token)),
             cache, token, tenants)
  }

  datatype AppVisit = AppVisit(value: seq<ServicePrincipal>, nextLink: string)

  /** The pages that Graph serves from `url` on, one at each call, each linking to the next and
      the last to none. */
  ghost predicate AppChain(tenants: seq<Tenant>, url: string, chain: seq<AppVisit>)
    decreases |chain|
  {
    && chain != [] && |tenants| == |chain|
    && tenants[0].apps(url) == Apps(chain[0].value, chain[0].nextLink)
    && (chain[0].nextLink == "" <==> |chain| == 1)
    && (|chain| > 1 ==> AppChain(tenants[1..], chain[0].nextLink, chain[1..]))
  }

  function ValuesOf(chain: seq<AppVisit>): seq<ServicePrincipal> {
    if chain == [] then [] else chain[0].value + ValuesOf(chain[1..])
  }

  /** No application of the organizations is refused when it is listed. */
  ghost predicate NoneRefused(organizationIDs: seq<string>, tenants: seq<Tenant>, chain: seq<AppVisit>)
    requires |tenants| == |chain|
  {
    forall i | 0 <= i < |chain| :: !AnyRefused(tenants[i], Kept(organizationIDs, chain[i].value))
  }

  /** The token that asks for `url`. */
  predicate AsksFor(token: Token, tenant: Tenant, url: string) {
    if url == "" then false else token == Saved([], PageState(url, "user", "")) || (token == NoToken && tenant.firstURL == url)
  }

  lemma IdsConcat(a: seq<ServicePrincipal>, b: seq<ServicePrincipal>)
    ensures IdsOf(a + b) == IdsOf(a) + IdsOf(b)
  {
  }

  function TokenFor(link: string): Token {
    if link == "" then NoToken else Saved([], PageState(link, "user", ""))
  }

  /** The call answers the page at the URL it is asked for. */
  ghost predicate ListsPage(call: (Tenant, Token) -> Called, organizationIDs: seq<string>, tenant: Tenant, token: Token,
                            url: string, page: AppVisit) {
    AsksFor(token, tenant, url) && tenant.apps(url) == Apps(page.value, page.nextLink)
    && !AnyRefused(tenant, Kept(organizationIDs, page.value)) ==>
      call(tenant, token) ==
      Called(Kept(organizationIDs, page.value), Ok(AppPage(IdsOf(Kept(organizationIDs, page.value)), TokenFor(page.nextLink))))
  }

  ghost predicate ListsPages(call: (Tenant, Token) -> Called, organizationIDs: seq<string>) {
    forall tenant, token, url, page :: ListsPage(call, organizationIDs, tenant, token, url, page)
  }

  lemma ListListsPages(organizationIDs: seq<string>)
    ensures ListsPages((tenant, token) => Called(Fetched(organizationIDs, tenant, token), ListReply(organizationIDs, tenant, token)),
                       organizationIDs)
  {
    var call := (tenant, token) => Called(Fetched(organizationIDs, tenant, token), ListReply(organizationIDs, tenant, token));
    forall tenant, token, url, page ensures ListsPage(call, organizationIDs, tenant, token, url, page) {
      if AsksFor(token, tenant, url) && tenant.apps(url) == Apps(page.value, page.nextLink) {
        ListExactly(organizationIDs, tenant, token);
      }
    }
  }

  /** What a run of `n` calls over the chain comes to. */
  ghost predicate ListsPrefix(call: (Tenant, Token) -> Called, organizationIDs: seq<string>, cache: Cache, token: Token,
                              tenants: seq<Tenant>, chain: seq<AppVisit>, n: nat)
    requires n <= |chain| == |tenants|
  {
    var kept := Kept(organizationIDs, ValuesOf(chain[..n]));
    RunCalls(call, cache, token, tenants[..n]) ==
    ListRun(IdsOf(kept), Stored(cache, kept),
            if n == |chain| then Over else Waiting(if n == 0 then token else TokenFor(chain[n - 1].nextLink)))
  }

  lemma KeptPrefix(organizationIDs: seq<string>, chain: seq<AppVisit>, n: nat)
    requires 0 < n <= |chain|
    ensures Kept(organizationIDs, ValuesOf(chain[..n])) ==
            Kept(organizationIDs, chain[0].value) + Kept(organizationIDs, ValuesOf(chain[1..][..n - 1]))
  {
    var rest := chain[1..][..n - 1];
    assert chain[..n][0] == chain[0] && chain[..n][1..] == rest;
    KeptConcat(organizationIDs, chain[0].value, ValuesOf(rest));
  }

  lemma OnePageListed(call: (Tenant, Token) -> Called, organizationIDs: seq<string>, cache: Cache, token: Token,
                      tenants: seq<Tenant>, chain: seq<AppVisit>)
    requires |chain| == |tenants| == 1 && chain[0].nextLink == ""
    requires call(tenants[0], token) == Called(Kept(organizationIDs, chain[0].value), Ok(AppPage(IdsOf(Kept(organizationIDs, chain[0].value)), NoToken)))
    ensures ListsPrefix(call, organizationIDs, cache, token, tenants, chain, 1)
  {
    assert tenants[..1] == tenants && chain[..1] == chain && chain[1..] == [];
    assert chain[0].value + [] == chain[0].value;
  }

  lemma NextPageListed(call: (Tenant, Token) -> Called, organizationIDs: seq<string>, cache: Cache, token: Token,
                       tenants: seq<Tenant>, chain: seq<AppVisit>, n: nat)
    requires 0 < n <= |chain| == |tenants| && |chain| > 1 && chain[0].nextLink != ""
    requires call(tenants[0], token) == Called(Kept(organizationIDs, chain[0].value),
                                               Ok(AppPage(IdsOf(Kept(organizationIDs, chain[0].value)), TokenFor(chain[0].nextLink))))
    requires ListsPrefix(call, organizationIDs, Stored(cache, Kept(organizationIDs, chain[0].value)), TokenFor(chain[0].nextLink),
                         tenants[1..], chain[1..], n - 1)
    ensures ListsPrefix(call, organizationIDs, cache, token, tenants, chain, n)
  {
    var kept, rest := Kept(organizationIDs, chain[0].value), Kept(organizationIDs, ValuesOf(chain[1..][..n - 1]));
    assert tenants[..n][0] == tenants[0] && tenants[..n][1..] == tenants[1..][..n - 1];
    KeptPrefix(organizationIDs, chain, n);
    StoredConcat(cache, kept, rest);
    IdsConcat(kept, rest);
  }

  lemma {:induction false} RunListFrom(call: (Tenant, Token) -> Called, organizationIDs: seq<string>, cache: Cache, token: Token,
                                       url: string, tenants: seq<Tenant>, chain: seq<AppVisit>, n: nat)
    requires ListsPages(call, organizationIDs)
    requires AppChain(tenants, url, chain) && NoneRefused(organizationIDs, tenants, chain) && n <= |chain|
    requires AsksFor(token, tenants[0], url)
    ensures ListsPrefix(call, organizationIDs, cache, token, tenants, chain, n)
    decreases |chain|
  {
    if n == 0 {
      assert tenants[..0] == [] && chain[..0] == [];
      assert IdsOf([]) == [];
    } else {
      assert ListsPage(call, organizationIDs, tenants[0], token, url, chain[0]);
      if |chain| == 1 {
        OnePageListed(call, organizationIDs, cache, token, tenants, chain);
      } else {
        assert forall i | 0 <= i < |chain[1..]| :: chain[1..][i] == chain[i + 1] && tenants[1..][i] == tenants[i + 1];
        RunListFrom(call, organizationIDs, Stored(cache, Kept(organizationIDs, chain[0].value)), TokenFor(chain[0].nextLink),
                    chain[0].nextLink, tenants[1..], chain[1..], n - 1);
        NextPageListed(call, organizationIDs, cache, token, tenants, chain, n);
      }
    }
  }

  /** A whole sync of the applications. From the empty token, and over the pages that Graph
      serves from the first URL on, a run of `List` asks for each page once and is over
      exactly with the page that has no link. It returns the applications of the
      organizations of all pages, in order, and leaves just these cached, the last of each ID. */
  lemma {:induction false} FullListing(organizationIDs: seq<string>, tenants: seq<Tenant>, chain: seq<AppVisit>, n: nat)
    requires tenants != [] && tenants[0].firstURL != "" && AppChain(tenants, tenants[0].firstURL, chain)
    requires NoneRefused(organizationIDs, tenants, chain) && n <= |chain|
    ensures var kept := Kept(organizationIDs, ValuesOf(chain[..n]));
            var run := RunList(organizationIDs, map[], NoToken, tenants[..n]);
            && run.apps == IdsOf(kept)
            && (forall id :: id in run.cache <==> Has(kept, id))
            && (forall id | id in run.cache :: Latest(kept, id) == Some(run.cache[id]))
            && (run.end == Over <==> n == |chain|)
            && (0 < n < |chain| ==> run.end == Waiting(TokenFor(chain[n - 1].nextLink)))
  {
    var kept := Kept(organizationIDs, ValuesOf(chain[..n]));
    ListListsPages(organizationIDs);
    RunListFrom((tenant, token) => Called(Fetched(organizationIDs, tenant, token), ListReply(organizationIDs, tenant, token)),
                organizationIDs, map[], NoToken, tenants[0].firstURL, tenants, chain, n);
    StoredIsLatest(kept);
    forall id ensures Latest(kept, id).Some? <==> Has(kept, id) {
      LatestMeaning(kept, id);
    }
  }

  // ---- Entitlements and Grants against the cache ----

  /** `Grants` drops one prefix "applications/", and changes no other ID. */
  lemma TrimmedExactly(id: string)
    ensures forall rest | id == "applications/" + rest :: Trimmed(id) == rest
    ensures (forall rest :: id != "applications/" + rest) ==> Trimmed(id) == id
  {
    if APPLICATIONS <= id {
      assert id == "applications/" + id[|APPLICATIONS|..];
    }
  }

  /** `Entitlements` panics exactly on an application that is not cached. `Grants` panics from
      the empty token exactly on one whose ID, without the prefix "applications/", is not
      cached, and from any other exactly when the assignment listing is on top and the whole
      ID is not. So on a cached application only the prefix, with an empty token, can do it. */
  lemma PanicsExactly(tenant: Tenant, cache: Cache, resource: ResourceId, token: Token)
    ensures Emitted(cache, resource.resource).None? <==> resource.resource !in cache
    ensures AppGrants(tenant, cache, resource, token).GrantsPanicked?
            <==> match token
                 case NoToken => Trimmed(resource.resource) !in cache
                 case Corrupt => false
                 case Saved(_, top) => top.resourceTypeID == ASSIGNMENT && resource.resource !in cache
    ensures resource.resource in cache && AppGrants(tenant, cache, resource, token).GrantsPanicked? ==>
              token == NoToken && APPLICATIONS <= resource.resource
  {
    if !token.Corrupt? {
      var stack := OpenedApp(tenant, resource.resource, token);
      assert token.Saved? ==> stack[|stack| - 1] == token.top;
    }
  }

  /** After every history of `List` calls, no returned application makes `Entitlements`
      panic; `Grants` panics on one only from the empty token, and then exactly when its ID
      starts with "applications/" and what follows the prefix is not cached. When all calls
      succeeded, that is when no application was returned under the trimmed ID. */
  lemma {:induction false} ListedPanicsExactly(organizationIDs: seq<string>, calls: seq<ListCall>, app: ResourceId,
                                               tenant: Tenant, token: Token)
    requires app.resourceType == ENTERPRISE_APPLICATION && app in Returned(organizationIDs, calls)
    ensures var cache := CacheAfter(organizationIDs, map[], calls);
            && Emitted(cache, app.resource).Some?
            && (AppGrants(tenant, cache, app, token).GrantsPanicked?
                <==> token == NoToken && APPLICATIONS <= app.resource && Trimmed(app.resource) !in cache)
            && ((forall c | c in calls :: Succeeds(organizationIDs, c)) ==>
                  (AppGrants(tenant, cache, app, NoToken).GrantsPanicked?
                   <==> app.(resource := Trimmed(app.resource)) !in Returned(organizationIDs, calls)))
  {
    ListedIsCached(organizationIDs, calls, app.resource);
    ListedIsCached(organizationIDs, calls, Trimmed(app.resource));
    var cache := CacheAfter(organizationIDs, map[], calls);
    PanicsExactly(tenant, cache, app, token);
    PanicsExactly(tenant, cache, app, NoToken);
  }

  /** There is such an application: a sync whose only listed application has the prefix. */
  lemma {:induction false} PrefixedAppPanics() returns (organizationIDs: seq<string>, call: ListCall, app: ResourceId)
    ensures Succeeds(organizationIDs, call) && app in Returned(organizationIDs, [call])
    ensures AppGrants(call.tenant, CacheAfter(organizationIDs, map[], [call]), app, NoToken).GrantsPanicked?
  {
    var sp := ServicePrincipal(APPLICATIONS + "a", "org", [], []);
    app := ResourceId(ENTERPRISE_APPLICATION, sp.id);
    organizationIDs := ["org"];
    var tenant := Tenant(_ => Apps([sp], ""), "first", _ => false, _ => NoResponse, id => id, id => id);
    call := ListCall(tenant, NoToken);
    assert Owned(organizationIDs, [sp]) == [sp] by {
      assert [sp][..0] == [];
    }
    assert Fetched(organizationIDs, tenant, NoToken) == [sp];
    ConvertedMeaning([sp], app => AppResource(tenant, app));
    PageReturns(organizationIDs, tenant, NoToken, sp.id);
    assert Returned(organizationIDs, [call]) ==
           ListReply(organizationIDs, tenant, NoToken).value.apps + Returned(organizationIDs, [call][1..]);
    assert CacheAfter(organizationIDs, map[], [call]) == CacheAfter(organizationIDs, Stored(map[], [sp]), [call][1..]);
    assert Stored(map[], [sp][..0]) == map[];
    assert Trimmed(app.resource) == "a";
  }

  /** The grant an app role assignment stands for: to a user, a group, which is expandable to
      its members, or a service principal, which is taken for a managed identity; any other
      type of principal is left without a resource type. */
  ghost predicate StandsFor(g: Grant, resource: ResourceId, ara: AppRoleAssignment) {
    && g.id == ara.id
    && g.entitlement ==
       Entitlement("enterprise_application:" + resource.resource + ":assignment:" + ara.appRoleId, resource)
    && g.principal.resource == ara.principalId
    && g.principal.resourceType ==
       (match ara.principalType
        case "User" => "user"
        case "Group" => "group"
        case "ServicePrincipal" => "managed_identity"
        case _ => "")
    && g.expandable == if ara.principalType == "Group" then ["group:" + ara.principalId + ":members"] else []
  }

  lemma AssignmentGrantStands(resource: ResourceId, ara: AppRoleAssignment)
    ensures var r := AssignmentGrant(resource, ara); r.Ok? && r.value.Some? && StandsFor(r.value.value, resource, ara)
  {
    assert ":" + MEMBERS == ":members";
    assert GroupSync.GroupEntitlementID(ara.principalId, MEMBERS) == ("group:" + ara.principalId) + (":" + MEMBERS);
  }

  /** The assignment grants of a cached application, one for each assignment, in order. */
  lemma {:induction false} AssignmentGrantsForm(resource: ResourceId, assignments: seq<AppRoleAssignment>)
    ensures var r := Converted(assignments, ara => AssignmentGrant(resource, ara));
            && r.Ok? && |r.value| == |assignments|
            && forall i | 0 <= i < |assignments| :: StandsFor(r.value[i], resource, assignments[i])
  {
    if assignments != [] {
      AssignmentGrantStands(resource, assignments[0]);
      AssignmentGrantsForm(resource, assignments[1..]);
    }
  }

  /** A run of `Grants` from the empty token ends with its first call: it reports the
      cached assignments and never the owners, whatever Graph would answer. */
  lemma FreshRunSkipsOwners(tenant: Tenant, cache: Cache, resource: ResourceId)
    requires Trimmed(resource.resource) in cache
    ensures var r := AppGrants(tenant, cache, resource, NoToken);
            var rid := resource.(resource := Trimmed(resource.resource));
            var assignments := cache[rid.resource].appRolesAssignedTo;
            && r.GrantsPage? && r.next == NoToken && |r.grants| == |assignments|
            && forall i | 0 <= i < |assignments| ::
                 && StandsFor(r.grants[i], rid, assignments[i])
                 && r.grants[i].entitlement.id != OwnersEntitlementID(rid.resource)
  {
    var rid := resource.(resource := Trimmed(resource.resource));
    var assignments := cache[rid.resource].appRolesAssignedTo;
    AssignmentGrantsForm(rid, assignments);
    forall i | 0 <= i < |assignments|
      ensures AssignmentEntitlementID(rid.resource, assignments[i].appRoleId) != OwnersEntitlementID(rid.resource)
    {
      OwnersApart(rid.resource, assignments[i].appRoleId);
    }
  }

  /** What a call replies by the state on top of its stack: the cached assignments, or their
      panic; a page of owners, or its failure; and an error for any other state. */
  lemma GrantsByState(tenant: Tenant, cache: Cache, resource: ResourceId, below: seq<PageState>, top: PageState)
    ensures var r := AppGrants(tenant, cache, resource, Saved(below, top));
            match top.resourceTypeID
            case "assignment" =>
              if resource.resource !in cache then r == GrantsPanicked
              else
                && r.GrantsPage? && r.next == NoToken
                && |r.grants| == |cache[resource.resource].appRolesAssignedTo|
                && forall i | 0 <= i < |r.grants| :: StandsFor(r.grants[i], resource, cache[resource.resource].appRolesAssignedTo[i])
            case "owners" => r == OwnersReply(tenant, resource, below + [top])
            case _ => r == GrantsFailed(UnknownPageKind)
  {
    var stack := below + [top];
    assert OpenedApp(tenant, resource.resource, Saved(below, top)) == stack && stack[|stack| - 1] == top;
    if resource.resource in cache {
      AssignmentGrantsForm(resource, cache[resource.resource].appRolesAssignedTo);
    }
  }

  /** A page of owners: its conversion, with the token moved on to the page's link; or, when
      Graph does not serve it, a failure. */
  lemma OwnersPage(tenant: Tenant, resource: ResourceId, below: seq<PageState>, top: PageState)
    ensures var http := tenant.members(top.token);
            var r := OwnersReply(tenant, resource, below + [top]);
            if http.Response? && http.status in {200, 201, 204} && http.body.Some? then
              match OwnerGrants(resource, http.body.value.members)
              case Err(e) => r == GrantsFailed(e)
              case Ok(grants) => r == GrantsPage(grants, Onward(Saved(below, top), http.body.value.nextLink))
            else r == GrantsFailed(RemoteFailure)
  {
    var stack := below + [top];
    assert stack[|stack| - 1] == top;
    QueryMeaning(tenant.members(top.token));
    if tenant.members(top.token).Response? && tenant.members(top.token).body.Some? {
      OnwardIsNext(Saved(below, top), tenant.members(top.token).body.value.nextLink);
      assert Parsed(Saved(below, top), USER, "") == stack;
    }
  }

  /** What an owner adds: a grant for a user, an application and a managed identity, nothing
      for another service principal. */
  ghost predicate OwnerAdds(m: GroupSync.Membership, resource: ResourceId, grants: seq<Grant>) {
    var entitlement := Entitlement("enterprise_application:" + resource.resource + ":owners", resource);
    match m.odataType
    case "#microsoft.graph.user" => grants == [Grant(m.id, entitlement, ResourceId("user", m.id), [])]
    case "#microsoft.graph.servicePrincipal" =>
      (match m.servicePrincipalType
       case "Application" => grants == [Grant(m.id, entitlement, ResourceId("enterprise_application", m.id), [])]
       case "ManagedIdentity" => grants == [Grant(m.id, entitlement, ResourceId("managed_identity", m.id), [])]
       case _ => grants == [])
    case _ => false
  }

  ghost predicate OwnersAdd(members: seq<GroupSync.Membership>, resource: ResourceId, parts: seq<seq<Grant>>, grants: seq<Grant>) {
    && |parts| == |members| && grants == Flatten(parts)
    && forall i | 0 <= i < |members| :: OwnerAdds(members[i], resource, parts[i])
  }

  /** The grants of owners are what the owners add, one after the other; an owner that is
      neither a user nor a service principal fails them all. */
  lemma {:induction false} OwnersByKind(resource: ResourceId, members: seq<GroupSync.Membership>)
    ensures match OwnerGrants(resource, members)
            case Ok(grants) => exists parts :: OwnersAdd(members, resource, parts, grants)
            case Err(e) => e == UnknownMembership && UnknownOwner(members)
  {
    if members == [] {
      assert OwnersAdd([], resource, [], []);
    } else {
      var m, rest := members[0], members[1..];
      OwnersByKind(resource, rest);
      var one := OwnerGrant(resource, m);
      if one.Err? {
        assert UnknownOwner(members);
      } else if OwnerGrants(resource, rest).Err? {
        var i :| 0 <= i < |rest| && rest[i].odataType != "#microsoft.graph.user" && rest[i].odataType != "#microsoft.graph.servicePrincipal";
        assert members[i + 1] == rest[i];
      } else {
        var part := if one.value.Some? then [one.value.value] else [];
        assert OwnerAdds(m, resource, part);
        var parts :| OwnersAdd(rest, resource, parts, OwnerGrants(resource, rest).value);
        var all := [part] + parts;
        assert all[1..] == parts;
        assert OwnersAdd(members, resource, all, OwnerGrants(resource, members).value);
      }
    }
  }

  ghost predicate UnknownOwner(members: seq<GroupSync.Membership>) {
    exists i :: 0 <= i < |members| && members[i].odataType != "#microsoft.graph.user"
                && members[i].odataType != "#microsoft.graph.servicePrincipal"
  }

  /** The entitlements of a cached application: the owners', the default assignment's, and
      those of its roles. */
  lemma EntitlementsExactly(cache: Cache, resource: string)
    requires resource in cache
    ensures var entries := Emitted(cache, resource).value;
            && |entries| >= 2
            && entries[0] == Entry("enterprise_application:" + resource + ":owners", "owner")
            && entries[1] == Entry("enterprise_application:" + resource + ":assignment:" + "00000000-0000-0000-0000-000000000000", "assigned")
            && entries[2..] == RoleEntries(resource, cache[resource].appRoles)
  {
  }

  /** The texts of an application's entitlement IDs. */
  lemma EntitlementTexts(resource: string, appRoleId: string)
    ensures AssignmentEntitlementID(resource, appRoleId) == "enterprise_application:" + resource + ":assignment:" + appRoleId
    ensures OwnersEntitlementID(resource) == "enterprise_application:" + resource + ":owners"
  {
  }

  lemma OwnersApart(resource: string, appRoleId: string)
    ensures AssignmentEntitlementID(resource, appRoleId) != OwnersEntitlementID(resource)
  {
    var n := |"enterprise_application:"| + |resource|;
    assert AssignmentEntitlementID(resource, appRoleId)[n + 1] == 'a';
    assert OwnersEntitlementID(resource)[n + 1] == 'o';
  }

  lemma RoleApart(resource: string, a: string, b: string)
    ensures AssignmentEntitlementID(resource, a) == AssignmentEntitlementID(resource, b) <==> a == b
  {
    var prefix := "enterprise_application:" + resource + ":assignment:";
    assert (prefix + a)[|prefix|..] == a && (prefix + b)[|prefix|..] == b;
  }

  ghost predicate Names(entries: seq<Entry>, id: string) {
    exists i :: 0 <= i < |entries| && entries[i].id == id
  }

  /** The roles that users may hold. */
  ghost predicate UserRole(roles: seq<AppRole>, id: string) {
    exists i :: 0 <= i < |roles| && roles[i].id == id && "User" in roles[i].allowedMemberTypes
  }

  lemma {:induction false} RoleEntriesName(resource: string, roles: seq<AppRole>, id: string)
    ensures Names(RoleEntries(resource, roles), AssignmentEntitlementID(resource, id)) <==> UserRole(roles, id)
  {
    if roles != [] {
      var before, last := roles[..|roles| - 1], roles[|roles| - 1];
      RoleEntriesName(resource, before, id);
      RoleApart(resource, last.id, id);
      var entries := RoleEntries(resource, before);
      var all := RoleEntries(resource, roles);
      if AllowsUsers(last) {
        assert all[|entries|].id == AssignmentEntitlementID(resource, last.id);
      }
      assert entries <= all;
      assert forall i | 0 <= i < |entries| :: all[i] == entries[i];
      assert forall i | 0 <= i < |before| :: roles[i] == before[i];
    }
  }

  /** An assignment grant names an entitlement that `Entitlements` emits exactly when its app
      role is the default one or a cached role of the application that users may hold. */
  lemma GrantNamesEntitlement(cache: Cache, resource: string, ara: AppRoleAssignment)
    requires resource in cache
    ensures Names(Emitted(cache, resource).value, AssignmentEntitlementID(resource, ara.appRoleId))
            <==> ara.appRoleId == DEFAULT_APP_ROLE || UserRole(cache[resource].appRoles, ara.appRoleId)
  {
    var id := AssignmentEntitlementID(resource, ara.appRoleId);
    var entries, all := RoleEntries(resource, cache[resource].appRoles), Emitted(cache, resource).value;
    RoleEntriesName(resource, cache[resource].appRoles, ara.appRoleId);
    OwnersApart(resource, ara.appRoleId);
    RoleApart(resource, DEFAULT_APP_ROLE, ara.appRoleId);
    assert forall i | 0 <= i < |entries| :: all[i + 2] == entries[i];
    if i :| 0 <= i < |entries| && entries[i].id == id { assert all[i + 2].id == id; }
    if i :| 0 <= i < |all| && all[i].id == id && i >= 2 { assert entries[i - 2].id == id; }
    assert all[1].id == AssignmentEntitlementID(resource, DEFAULT_APP_ROLE);
  }

  /** The roles that users may hold, in order. */
  function UserRoles(roles: seq<AppRole>): seq<AppRole> {
    if roles == [] then [] else (if "User" in roles[0].allowedMemberTypes then [roles[0]] else []) + UserRoles(roles[1..])
  }

  lemma {:induction false} RoleEntriesConcat(resource: string, a: seq<AppRole>, b: seq<AppRole>)
    ensures RoleEntries(resource, a + b) == RoleEntries(resource, a) + RoleEntries(resource, b)
  {
    if b == [] {
      assert a + b == a;
    } else {
      assert (a + b)[..|a + b| - 1] == a + b[..|b| - 1];
      RoleEntriesConcat(resource, a, b[..|b| - 1]);
    }
  }

  /** The entitlements of a cached application are the owners', the default assignment's and,
      in the order of the app roles, one for each role that users may hold, with its value
      as the slug, or its display name when it has none. */
  lemma {:induction false} RoleEntriesInOrder(resource: string, roles: seq<AppRole>)
    ensures var entries, kept := RoleEntries(resource, roles), UserRoles(roles);
            && |entries| == |kept|
            && forall i | 0 <= i < |kept| ::
                 && entries[i].id == AssignmentEntitlementID(resource, kept[i].id)
                 && entries[i].slug == if kept[i].value == "" then kept[i].displayName else kept[i].value
  {
    if roles != [] {
      RoleEntriesInOrder(resource, roles[1..]);
      assert roles == [roles[0]] + roles[1..] && [roles[0]][..0] == [];
      RoleEntriesConcat(resource, [roles[0]], roles[1..]);
      assert RoleEntries(resource, [roles[0]][..0]) == [];
    }
  }

  // ---- the owners listing, resumed from a token ----

  /** Making calls from `token` until the token is empty: all grants, or the first error.
      None when `calls` calls do not suffice, or on a panic. */
  function RunOf(call: Token -> GrantsReply, token: Token, calls: nat): Option<Result<seq<Grant>>>
    decreases calls
  {
    if calls == 0 then None
    else match call(token)
      case GrantsPanicked => None
      case GrantsFailed(e) => Some(Err(e))
      case GrantsPage(grants, next) =>
        if next.NoToken? then Some(Ok(grants))
        else match RunOf(call, next, calls - 1)
          case None => None
          case Some(rest) => Some(Then(Ok(grants), rest))
  }

  /** A run of `Grants` on an application. */
  function AppRun(tenant: Tenant, cache: Cache, resource: ResourceId, token: Token, calls: nat): Option<Result<seq<Grant>>> {
    RunOf(t => AppGrants(tenant, cache, resource, t), token, calls)
  }

  function OwnersGraph(tenant: Tenant): GroupSync.Graph {
    GroupSync.Graph(tenant.members, id => id, tenant.ownersURL)
  }

  lemma OwnersCall(tenant: Tenant, cache: Cache, resource: ResourceId, ps: PageState)
    requires ps.resourceTypeID == OWNERS
    ensures AppGrants(tenant, cache, resource, Saved([], ps)) == OwnersReply(tenant, resource, [ps])
  {
    assert OpenedApp(tenant, resource.resource, Saved([], ps)) == [ps];
    assert |OWNERS| != |ASSIGNMENT|;
  }

  lemma AdvanceOne(ps: PageState, link: string)
    ensures TokenOf(Advanced([ps], link)) == if link == "" then NoToken else Saved([], ps.(token := link))
  {
    if link == "" {
      assert Advanced([ps], link) == [];
    } else {
      assert Advanced([ps], link) == [ps.(token := link)];
    }
  }

  lemma OwnerGrantsConcat(resource: ResourceId, a: seq<GroupSync.Membership>, b: seq<GroupSync.Membership>)
    ensures OwnerGrants(resource, a + b) == Then(OwnerGrants(resource, a), OwnerGrants(resource, b))
  {
    ConvertedConcat(a, b, m => OwnerGrant(resource, m));
  }

  /** The call serves the page at the top of a one-state stack, converted, and moves on to its link. */
  ghost predicate Serves(call: Token -> GrantsReply, ps: PageState, page: GroupSync.MemberPage,
                         convert: seq<GroupSync.Membership> -> Result<seq<Grant>>) {
    call(Saved([], ps)) ==
    ToReply(convert(page.members), if page.nextLink == "" then NoToken else Saved([], ps.(token := page.nextLink)))
  }

  ghost predicate Homomorphic(convert: seq<GroupSync.Membership> -> Result<seq<Grant>>) {
    forall a, b :: convert(a + b) == Then(convert(a), convert(b))
  }

  lemma HomomorphicAt(convert: seq<GroupSync.Membership> -> Result<seq<Grant>>, a: seq<GroupSync.Membership>, b: seq<GroupSync.Membership>)
    requires Homomorphic(convert)
    ensures convert(a + b) == Then(convert(a), convert(b))
  {
  }

  lemma RunStep(call: Token -> GrantsReply, ps: PageState, page: GroupSync.MemberPage, calls: nat,
                convert: seq<GroupSync.Membership> -> Result<seq<Grant>>, rest: Result<seq<Grant>>)
    requires Serves(call, ps, page, convert) && calls > 0
    requires page.nextLink != "" ==> RunOf(call, Saved([], ps.(token := page.nextLink)), calls - 1) == Some(rest)
    ensures RunOf(call, Saved([], ps), calls) ==
            Some(if page.nextLink == "" then convert(page.members) else Then(convert(page.members), rest))
  {
  }

  lemma OwnersChain(graph: GroupSync.Graph, url: string, chain: seq<GroupSync.Visit>)
    requires GroupSync.IsChain(graph, url, chain, GroupSync.Finished)
    ensures chain != [] && graph.query(url) == Answer(chain[0].page)
    ensures chain[0].page.nextLink == "" ==> |chain| == 1 && GroupSync.MembersOf(chain) == chain[0].page.members
    ensures chain[0].page.nextLink != "" ==>
              && GroupSync.IsChain(graph, chain[0].page.nextLink, chain[1..], GroupSync.Finished)
              && GroupSync.MembersOf(chain) == chain[0].page.members + GroupSync.MembersOf(chain[1..])
  {
    if chain[0].page.nextLink == "" {
      assert chain[1..] == [] && chain[0].page.members + [] == chain[0].page.members;
    }
  }

  /** For any page-wise call whose conversion is a homomorphism, a run over a chain converts
      the whole chain. */
  lemma {:induction false} RunConverts(call: Token -> GrantsReply, graph: GroupSync.Graph, ps: PageState,
                                       chain: seq<GroupSync.Visit>, calls: nat,
                                       convert: seq<GroupSync.Membership> -> Result<seq<Grant>>)
    requires GroupSync.IsChain(graph, ps.token, chain, GroupSync.Finished) && calls >= |chain|
    requires forall url, page | graph.query(url) == Answer(page) :: Serves(call, ps.(token := url), page, convert)
    requires Homomorphic(convert)
    ensures RunOf(call, Saved([], ps), calls) == Some(convert(GroupSync.MembersOf(chain)))
    decreases |chain|
  {
    OwnersChain(graph, ps.token, chain);
    var page, rest := chain[0].page, chain[1..];
    assert ps.(token := ps.token) == ps && Serves(call, ps, page, convert);
    if page.nextLink != "" {
      RunConverts(call, graph, ps.(token := page.nextLink), rest, calls - 1, convert);
      HomomorphicAt(convert, page.members, GroupSync.MembersOf(rest));
    }
    RunStep(call, ps, page, calls, convert, convert(GroupSync.MembersOf(rest)));
  }

  /** Unlike a group's, an application's owners listing is never cut: resumed at its first
      page it is converted as a whole, and fails exactly when some owner is of an unknown kind. */
  lemma {:induction false} OwnersRun(tenant: Tenant, cache: Cache, resource: ResourceId, ps: PageState, chain: seq<GroupSync.Visit>, calls: nat)
    requires ps.resourceTypeID == OWNERS
    requires GroupSync.IsChain(OwnersGraph(tenant), ps.token, chain, GroupSync.Finished)
    requires calls >= |chain|
    ensures AppRun(tenant, cache, resource, Saved([], ps), calls) == Some(OwnerGrants(resource, GroupSync.MembersOf(chain)))
  {
    var call := t => AppGrants(tenant, cache, resource, t);
    var convert := members => OwnerGrants(resource, members);
    forall url, page | OwnersGraph(tenant).query(url) == Answer(page)
      ensures Serves(call, ps.(token := url), page, convert)
    {
      OwnersCall(tenant, cache, resource, ps.(token := url));
      AdvanceOne(ps.(token := url), page.nextLink);
    }
    assert Homomorphic(convert) by {
      forall a, b ensures convert(a + b) == Then(convert(a), convert(b)) {
        OwnerGrantsConcat(resource, a, b);
      }
    }
    RunConverts(call, OwnersGraph(tenant), ps, chain, calls, convert);
  }

  /** An owner that is neither a user nor a service principal fails the conversion of any
      list that holds it, and nothing else does. */
  lemma OwnersFailExactly(resource: ResourceId, members: seq<GroupSync.Membership>)
    ensures OwnerGrants(resource, members).Err? <==> UnknownOwner(members)
  {
    ConvertedMeaning(members, m => OwnerGrant(resource, m));
    if i :| 0 <= i < |members| && OwnerGrant(resource, members[i]).Err? {
      assert members[i].odataType != "#microsoft.graph.user";
    }
  }
}
