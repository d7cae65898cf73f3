/** The resource-group role-assignment builder: it lists one resource for each resource
    group and role definition of each subscription, and grants and revokes the roles at
    the resource group's scope. */
module ResourceGroupRoles {
  import opened Wrappers
  import opened Text
  import opened Resources
  import opened Identifiers
  import opened Paging
  import opened Directory
  import opened Assignments
  import opened Provisioning
  import opened Revocation

  /** The listings `List` reads: subscription IDs, and for each subscription the names of
      its role definitions and of its resource groups. */
  datatype Azure = Azure(subscriptions: Listing<string>, roles: string -> Listing<string>, groups: string -> Listing<string>)

  datatype Triple = Triple(subscription: string, group: string, role: string)

  datatype Resource = Resource(id: ResourceId, parent: ResourceId)

  function ResourceOf(t: Triple): Resource {
    Resource(ResourceId(RESOURCE_GROUP_ROLE, GetResourceGroupID(t.group, t.subscription, t.role)),
             ResourceId(SUBSCRIPTION, t.subscription))
  }

  /** The resource of a triple, and the subscription it is listed under. */
  lemma ResourceTexts(t: Triple)
    ensures ResourceOf(t).id == ResourceId("resource_group_role_assignment", t.group + ":" + t.subscription + ":" + t.role)
    ensures ResourceOf(t).parent == ResourceId("subscription", t.subscription)
  {
  }

  function Row(subscription: string, group: string, roles: seq<string>): seq<Triple> {
    if roles == [] then []
    else Row(subscription, group, roles[..|roles| - 1]) + [Triple(subscription, group, roles[|roles| - 1])]
  }

  function Product(subscription: string, groups: seq<string>, roles: seq<string>): seq<Triple> {
    if groups == [] then []
    else Product(subscription, groups[..|groups| - 1], roles) + Row(subscription, groups[|groups| - 1], roles)
  }

  /** The triples of the subscriptions, from the whole listings. */
  function Triples(azure: Azure, subscriptions: seq<string>): seq<Triple> {
    if subscriptions == [] then []
    else
      var last := subscriptions[|subscriptions| - 1];
      Triples(azure, subscriptions[..|subscriptions| - 1]) + Product(last, azure.groups(last).All(), azure.roles(last).All())
  }

  function ResourcesOf(triples: seq<Triple>): seq<Resource> {
    seq(|triples|, i requires 0 <= i < |triples| => ResourceOf(triples[i]))
  }

  /** The page whose failure ends `List`: of the subscriptions, or of a subscription's roles
      or resource groups. */
  datatype Failure = SubscriptionsPage | RolesPage(subscription: string) | GroupsPage(subscription: string)

  datatype ListReply = Emits(resources: seq<Resource>) | ListFailed(page: Failure)

  /** The failure `List` meets in one subscription: the roles are read before the groups. */
  function FailureIn(azure: Azure, subscription: string): Option<Failure> {
    if !azure.roles(subscription).Complete() then Some(RolesPage(subscription))
    else if !azure.groups(subscription).Complete() then Some(GroupsPage(subscription))
    else None
  }

  function FirstFailure(azure: Azure, subscriptions: seq<string>): Option<Failure> {
    if subscriptions == [] then None
    else
      var here := FailureIn(azure, subscriptions[0]);
      if here.Some? then here else FirstFailure(azure, subscriptions[1..])
  }

  /** `List`: the first failure in the subscriptions served, else a failing page of
      subscriptions, else one resource for each triple. */
  function Listed(azure: Azure): ListReply {
    var failure := FirstFailure(azure, Flatten(azure.subscriptions.Served()));
    if failure.Some? then ListFailed(failure.value)
    else if !azure.subscriptions.Complete() then ListFailed(SubscriptionsPage)
    else Emits(ResourcesOf(Triples(azure, azure.subscriptions.All())))
  }

  lemma {:induction false} FirstFailureConcat(azure: Azure, a: seq<string>, b: seq<string>)
    ensures FirstFailure(azure, a + b) ==
            if FirstFailure(azure, a).Some? then FirstFailure(azure, a) else FirstFailure(azure, b)
  {
    if a == [] {
      assert a + b == b;
    } else {
      assert (a + b)[0] == a[0] && (a + b)[1..] == a[1..] + b;
      FirstFailureConcat(azure, a[1..], b);
    }
  }

  /** Which page's failure is reported: that of the first subscription in which there is one. */
  lemma {:induction false} FirstFailureMeaning(azure: Azure, subscriptions: seq<string>)
    ensures FirstFailure(azure, subscriptions) == None <==> forall s | s in subscriptions :: FailureIn(azure, s) == None
    ensures forall i | 0 <= i < |subscriptions| && FailureIn(azure, subscriptions[i]).Some?
                       && (forall j | 0 <= j < i :: FailureIn(azure, subscriptions[j]) == None) ::
              FirstFailure(azure, subscriptions) == FailureIn(azure, subscriptions[i])
  {
    if subscriptions != [] {
      var rest := subscriptions[1..];
      FirstFailureMeaning(azure, rest);
      assert subscriptions == [subscriptions[0]] + rest;
      forall i | 0 < i < |subscriptions| && FailureIn(azure, subscriptions[i]).Some?
                 && (forall j | 0 <= j < i :: FailureIn(azure, subscriptions[j]) == None)
        ensures FirstFailure(azure, subscriptions) == FailureIn(azure, subscriptions[i])
      {
        assert FailureIn(azure, subscriptions[0]) == None;
        assert rest[i - 1] == subscriptions[i];
        assert forall j | 0 <= j < i - 1 :: rest[j] == subscriptions[j + 1];
      }
    }
  }

  predicate Readable(azure: Azure, subscription: string) {
    azure.roles(subscription).Complete() && azure.groups(subscription).Complete()
  }

  lemma {:induction false} AllReadable(azure: Azure, subscriptions: seq<string>)
    ensures FirstFailure(azure, subscriptions) == None <==> forall s | s in subscriptions :: Readable(azure, s)
    ensures FirstFailure(azure, subscriptions) != Some(SubscriptionsPage)
  {
    if subscriptions != [] {
      var first, rest := subscriptions[0], subscriptions[1..];
      AllReadable(azure, rest);
      assert subscriptions == [first] + rest;
      assert forall s | s in rest :: s in subscriptions;
      assert first in subscriptions && (FailureIn(azure, first) == None <==> Readable(azure, first));
    }
  }

  /** `List` emits resources exactly when no page it reads fails; and a failure within a
      subscription it has been served is reported before a failing page of subscriptions. */
  lemma ListedMeaning(azure: Azure)
    ensures Listed(azure).Emits? <==>
            azure.subscriptions.Complete() && forall s | s in azure.subscriptions.All() :: Readable(azure, s)
    ensures Listed(azure) == ListFailed(SubscriptionsPage) <==>
            !azure.subscriptions.Complete() && forall s | s in Flatten(azure.subscriptions.Served()) :: Readable(azure, s)
  {
    AllReadable(azure, Flatten(azure.subscriptions.Served()));
  }

  method GetAllRoles(listing: Listing<string>) returns (r: Result<seq<string>>)
    ensures r == if listing.Complete() then Ok(listing.All()) else Err(RemoteFailure)
  {
    var lstRoles := [];
    var next := 0;
    while next < |listing.pages|
      invariant 0 <= next <= |listing.Served()|
      invariant lstRoles == Flatten(listing.pages[..next])
    {
      if next == listing.failAt {
        return Err(RemoteFailure);
      }
      FlattenNext(listing.pages, next);
      var page := listing.pages[next];
      ghost var before := lstRoles;
      for i := 0 to |page|
        invariant lstRoles == before + page[..i]
      {
        lstRoles := lstRoles + [page[i]];
      }
      next := next + 1;
    }
    assert listing.pages[..next] == listing.pages;
    return Ok(lstRoles);
  }

  lemma ProductNext(subscription: string, groups: seq<string>, group: string, roles: seq<string>)
    ensures Product(subscription, groups + [group], roles) == Product(subscription, groups, roles) + Row(subscription, group, roles)
  {
    assert (groups + [group])[..|groups|] == groups;
  }

  lemma RowNext(subscription: string, group: string, roles: seq<string>, i: nat)
    requires i < |roles|
    ensures Row(subscription, group, roles[..i + 1]) == Row(subscription, group, roles[..i]) + [Triple(subscription, group, roles[i])]
  {
    assert roles[..i + 1][..i] == roles[..i];
  }

  /** The loop over one page of resource groups, inside `List`. */
  method ListGroups(subscription: string, page: seq<string>, lstRoles: seq<string>, triples: seq<Triple>)
    returns (rv: seq<Triple>)
    ensures rv == triples + Product(subscription, page, lstRoles)
  {
    rv := triples;
    for g := 0 to |page|
      invariant rv == triples + Product(subscription, page[..g], lstRoles)
    {
      ghost var before := rv;
      for r := 0 to |lstRoles|
        invariant rv == before + Row(subscription, page[g], lstRoles[..r])
      {
        RowNext(subscription, page[g], lstRoles, r);
        rv := rv + [Triple(subscription, page[g], lstRoles[r])];
      }
      assert lstRoles[..|lstRoles|] == lstRoles && page[..g + 1] == page[..g] + [page[g]];
      ProductNext(subscription, page[..g], page[g], lstRoles);
    }
    assert page[..|page|] == page;
  }

  lemma {:induction false} ProductConcat(subscription: string, a: seq<string>, b: seq<string>, roles: seq<string>)
    ensures Product(subscription, a + b, roles) == Product(subscription, a, roles) + Product(subscription, b, roles)
  {
    if b == [] {
      assert a + b == a;
    } else {
      var b' := b[..|b| - 1];
      var last := Row(subscription, b[|b| - 1], roles);
      assert (a + b)[..|a + b| - 1] == a + b' && (a + b)[|a + b| - 1] == b[|b| - 1];
      ProductConcat(subscription, a, b', roles);
      assert (Product(subscription, a, roles) + Product(subscription, b', roles)) + last
          == Product(subscription, a, roles) + (Product(subscription, b', roles) + last);
    }
  }

  /** One subscription's part of `List`. */
  method ListSubscription(azure: Azure, subscription: string) returns (rv: seq<Triple>, failure: Option<Failure>)
    ensures failure == FailureIn(azure, subscription)
    ensures failure == None ==> rv == Product(subscription, azure.groups(subscription).All(), azure.roles(subscription).All())
  {
    var lstRoles := GetAllRoles(azure.roles(subscription));
    if lstRoles.Err? {
      return [], Some(RolesPage(subscription));
    }
    var pager := azure.groups(subscription);
    rv := [];
    var next := 0;
    while next < |pager.pages|
      invariant 0 <= next <= |pager.Served()|
      invariant rv == Product(subscription, Flatten(pager.pages[..next]), lstRoles.value)
    {
      if next == pager.failAt {
        return [], Some(GroupsPage(subscription));
      }
      FlattenNext(pager.pages, next);
      ProductConcat(subscription, Flatten(pager.pages[..next]), pager.pages[next], lstRoles.value);
      rv := ListGroups(subscription, pager.pages[next], lstRoles.value, rv);
      next := next + 1;
    }
    assert pager.pages[..next] == pager.pages;
    failure := None;
  }

  lemma TriplesNext(azure: Azure, subscriptions: seq<string>, s: string)
    ensures Triples(azure, subscriptions + [s]) ==
            Triples(azure, subscriptions) + Product(s, azure.groups(s).All(), azure.roles(s).All())
  {
    assert (subscriptions + [s])[..|subscriptions|] == subscriptions;
  }

  /** One more subscription of a page. */
  lemma PageNext(azure: Azure, done: seq<string>, page: seq<string>, i: nat)
    requires i < |page| && FirstFailure(azure, page[..i]) == None
    ensures FirstFailure(azure, page[..i + 1]) == FailureIn(azure, page[i])
    ensures FailureIn(azure, page[i]).Some? ==> FirstFailure(azure, page) == FailureIn(azure, page[i])
    ensures Triples(azure, done + page[..i + 1]) ==
            Triples(azure, done + page[..i]) + Product(page[i], azure.groups(page[i]).All(), azure.roles(page[i]).All())
  {
    assert page[..i + 1] == page[..i] + [page[i]] && [page[i]][1..] == [];
    FirstFailureConcat(azure, page[..i], [page[i]]);
    assert page == page[..i + 1] + page[i + 1..];
    FirstFailureConcat(azure, page[..i + 1], page[i + 1..]);
    assert done + page[..i + 1] == (done + page[..i]) + [page[i]];
    TriplesNext(azure, done + page[..i], page[i]);
  }

  /** The loop over one page of subscriptions, inside `List`; `done` are those of earlier pages. */
  method ListPage(azure: Azure, page: seq<string>, triples: seq<Triple>, ghost done: seq<string>)
    returns (rv: seq<Triple>, failure: Option<Failure>)
    requires triples == Triples(azure, done)
    ensures failure == FirstFailure(azure, page)
    ensures failure == None ==> rv == Triples(azure, done + page)
  {
    rv := triples;
    assert done + page[..0] == done;
    for i := 0 to |page|
      invariant rv == Triples(azure, done + page[..i])
      invariant FirstFailure(azure, page[..i]) == None
    {
      PageNext(azure, done, page, i);
      var part, failed := ListSubscription(azure, page[i]);
      if failed.Some? {
        return [], failed;
      }
      rv := rv + part;
    }
    assert page[..|page|] == page;
    failure := None;
  }

  method List(azure: Azure) returns (r: ListReply)
    ensures r == Listed(azure)
  {
    var pages := azure.subscriptions.pages;
    var rv := [];
    var next := 0;
    while next < |pages|
      invariant 0 <= next <= |azure.subscriptions.Served()|
      invariant rv == Triples(azure, Flatten(pages[..next]))
      invariant FirstFailure(azure, Flatten(pages[..next])) == None
    {
      if next == azure.subscriptions.failAt {
        return ListFailed(SubscriptionsPage);
      }
      FlattenNext(pages, next);
      FirstFailureConcat(azure, Flatten(pages[..next]), pages[next]);
      var part, failure := ListPage(azure, pages[next], rv, Flatten(pages[..next]));
      next := next + 1;
      if failure.Some? {
        ServedFrom(azure.subscriptions, next);
        FirstFailureConcat(azure, Flatten(pages[..next]), Flatten(azure.subscriptions.Served()[next..]));
        return ListFailed(failure.value);
      }
      rv := part;
    }
    assert pages[..next] == pages;
    return Emits(ResourcesOf(rv));
  }

  // ---- one resource for each triple ----

  lemma {:induction false} CountRow(s: string, g: string, roles: seq<string>, t: Triple)
    ensures multiset(Row(s, g, roles))[t] == if t.subscription == s && t.group == g then multiset(roles)[t.role] else 0
  {
    if roles != [] {
      var roles' := roles[..|roles| - 1];
      CountRow(s, g, roles', t);
      assert roles == roles' + [roles[|roles| - 1]];
    }
  }

  lemma CountConcat<T>(a: seq<T>, b: seq<T>, x: T)
    ensures multiset(a + b)[x] == multiset(a)[x] + multiset(b)[x]
  {
  }

  lemma CountLast<T>(s: seq<T>, x: T)
    requires s != []
    ensures multiset(s)[x] == multiset(s[..|s| - 1])[x] + if x == s[|s| - 1] then 1 else 0
  {
    assert s == s[..|s| - 1] + [s[|s| - 1]];
  }

  lemma MultiplyNext(n: nat, m: nat)
    ensures (n + 1) * m == n * m + m
  {
  }

  lemma {:induction false} CountProduct(s: string, groups: seq<string>, roles: seq<string>, t: Triple)
    ensures multiset(Product(s, groups, roles))[t] ==
            if t.subscription == s then multiset(groups)[t.group] * multiset(roles)[t.role] else 0
  {
    if groups != [] {
      var groups', g := groups[..|groups| - 1], groups[|groups| - 1];
      CountProduct(s, groups', roles, t);
      CountRow(s, g, roles, t);
      CountConcat(Product(s, groups', roles), Row(s, g, roles), t);
      CountLast(groups, t.group);
      MultiplyNext(multiset(groups')[t.group], multiset(roles)[t.role]);
    }
  }

  /** How often the triple's resource group and role are listed under its subscription. */
  ghost function InSubscription(azure: Azure, t: Triple): nat {
    multiset(azure.groups(t.subscription).All())[t.group] * multiset(azure.roles(t.subscription).All())[t.role]
  }

  /** Each triple is listed as often as its subscription, its resource group and its role
      are, multiplied: exactly once when none is listed twice, never when one is missing. */
  lemma {:induction false} TripleCount(azure: Azure, subscriptions: seq<string>, t: Triple)
    ensures multiset(Triples(azure, subscriptions))[t] == multiset(subscriptions)[t.subscription] * InSubscription(azure, t)
  {
    if subscriptions != [] {
      var before, s := subscriptions[..|subscriptions| - 1], subscriptions[|subscriptions| - 1];
      var part := Product(s, azure.groups(s).All(), azure.roles(s).All());
      TripleCount(azure, before, t);
      CountProduct(s, azure.groups(s).All(), azure.roles(s).All(), t);
      CountConcat(Triples(azure, before), part, t);
      CountLast(subscriptions, t.subscription);
      MultiplyNext(multiset(before)[t.subscription], InSubscription(azure, t));
    }
  }

  /** The subscription is listed, with the resource group and the role. */
  ghost predicate Exists(azure: Azure, t: Triple) {
    && t.subscription in azure.subscriptions.All()
    && t.group in azure.groups(t.subscription).All()
    && t.role in azure.roles(t.subscription).All()
  }

  ghost predicate ColonFree(t: Triple) {
    ':' !in t.subscription && ':' !in t.group && ':' !in t.role
  }

  lemma {:induction false} CountDistinct<T(!new)>(s: seq<T>, x: T)
    requires Distinct(s)
    ensures multiset(s)[x] == if x in s then 1 else 0
  {
    if s != [] {
      var s' := s[..|s| - 1];
      CountDistinct(s', x);
      assert s == s' + [s[|s| - 1]];
    }
  }

  lemma {:induction false} AtMostOnce(s: seq<Triple>, i: nat, j: nat)
    requires i < j < |s| && s[i] == s[j]
    ensures multiset(s)[s[i]] >= 2
  {
    assert s == s[..j] + s[j..];
    assert s[..j][i] in s[..j] && s[j..][0] in s[j..];
  }

  /** No subscription, no resource group or role of one subscription is listed twice. */
  ghost predicate NoRepeats(azure: Azure) {
    && Distinct(azure.subscriptions.All())
    && forall s | s in azure.subscriptions.All() :: Distinct(azure.groups(s).All()) && Distinct(azure.roles(s).All())
  }

  lemma TripleOnce(azure: Azure, t: Triple)
    requires NoRepeats(azure)
    ensures multiset(Triples(azure, azure.subscriptions.All()))[t] == if Exists(azure, t) then 1 else 0
    ensures t in Triples(azure, azure.subscriptions.All()) <==> Exists(azure, t)
  {
    TripleCount(azure, azure.subscriptions.All(), t);
    CountDistinct(azure.subscriptions.All(), t.subscription);
    if t.subscription in azure.subscriptions.All() {
      CountDistinct(azure.groups(t.subscription).All(), t.group);
      CountDistinct(azure.roles(t.subscription).All(), t.role);
    }
    var triples := Triples(azure, azure.subscriptions.All());
    assert t in triples <==> multiset(triples)[t] > 0;
  }

  /** A listed resource's ID is read back as its triple, so two resources with one ID are of one triple. */
  lemma ResourceIdsApart(t: Triple, t': Triple)
    requires ColonFree(t) && ColonFree(t')
    ensures ResourceGroupParts(ResourceOf(t).id.resource) == (t.group, t.subscription, t.role)
    ensures ResourceOf(t).id == ResourceOf(t').id <==> t == t'
  {
    ResourceGroupIdRoundTrip(t.group, t.subscription, t.role);
    ResourceGroupIdRoundTrip(t'.group, t'.subscription, t'.role);
  }

  /** With listings free of repetitions and colon-free parts, `List` emits for every triple
      of a subscription, its resource group and its role exactly one resource, no other
      resource, and no two resources with one ID; the colon split recovers the triple. */
  lemma OneResourcePerTriple(azure: Azure)
    requires Listed(azure).Emits? && NoRepeats(azure)
    requires forall t | Exists(azure, t) :: ColonFree(t)
    ensures var resources := Listed(azure).resources;
            && (forall t | Exists(azure, t) :: ResourceOf(t) in resources)
            && (forall r | r in resources :: exists t :: Exists(azure, t) && r == ResourceOf(t)
                                                         && ResourceGroupParts(r.id.resource) == (t.group, t.subscription, t.role))
            && (forall i, j | 0 <= i < j < |resources| :: resources[i].id != resources[j].id)
  {
    var triples, resources := Triples(azure, azure.subscriptions.All()), Listed(azure).resources;
    forall t | Exists(azure, t) ensures ResourceOf(t) in resources {
      TripleOnce(azure, t);
      var i :| 0 <= i < |triples| && triples[i] == t;
      assert resources[i] == ResourceOf(t);
    }
    forall r | r in resources
      ensures exists t :: Exists(azure, t) && r == ResourceOf(t)
                          && ResourceGroupParts(r.id.resource) == (t.group, t.subscription, t.role)
    {
      var i :| 0 <= i < |resources| && resources[i] == r;
      TripleOnce(azure, triples[i]);
      ResourceIdsApart(triples[i], triples[i]);
    }
    forall i, j | 0 <= i < j < |resources| ensures resources[i].id != resources[j].id {
      TripleOnce(azure, triples[i]);
      TripleOnce(azure, triples[j]);
      ResourceIdsApart(triples[i], triples[j]);
      if triples[i] == triples[j] {
        AtMostOnce(triples, i, j);
      }
    }
  }

  lemma {:induction false} SameTriples(a: Azure, b: Azure, subscriptions: seq<string>)
    requires forall s | s in subscriptions :: a.roles(s).All() == b.roles(s).All() && a.groups(s).All() == b.groups(s).All()
    ensures Triples(a, subscriptions) == Triples(b, subscriptions)
  {
    if subscriptions != [] {
      SameTriples(a, b, subscriptions[..|subscriptions| - 1]);
    }
  }

  /** A reference for the nested loops, from the front: the groups in order, and for each the
      roles in order. */
  function InOrder(subscription: string, groups: seq<string>, roles: seq<string>): seq<Triple> {
    if groups == [] then []
    else seq(|roles|, i requires 0 <= i < |roles| => Triple(subscription, groups[0], roles[i]))
         + InOrder(subscription, groups[1..], roles)
  }

  function AllInOrder(azure: Azure, subscriptions: seq<string>): seq<Triple> {
    if subscriptions == [] then []
    else InOrder(subscriptions[0], azure.groups(subscriptions[0]).All(), azure.roles(subscriptions[0]).All())
         + AllInOrder(azure, subscriptions[1..])
  }

  lemma {:induction false} RowInOrder(s: string, g: string, roles: seq<string>)
    ensures Row(s, g, roles) == seq(|roles|, i requires 0 <= i < |roles| => Triple(s, g, roles[i]))
  {
    if roles != [] {
      RowInOrder(s, g, roles[..|roles| - 1]);
    }
  }

  lemma {:induction false} ProductInOrder(s: string, groups: seq<string>, roles: seq<string>)
    ensures Product(s, groups, roles) == InOrder(s, groups, roles)
  {
    if groups != [] {
      var first, rest := [groups[0]], groups[1..];
      ProductInOrder(s, rest, roles);
      assert groups == first + rest;
      ProductConcat(s, first, rest, roles);
      assert first[..0] == [];
      assert Product(s, first, roles) == [] + Row(s, groups[0], roles);
      RowInOrder(s, groups[0], roles);
    }
  }

  lemma {:induction false} TriplesConcat(azure: Azure, a: seq<string>, b: seq<string>)
    ensures Triples(azure, a + b) == Triples(azure, a) + Triples(azure, b)
  {
    if b == [] {
      assert a + b == a;
    } else {
      var b', last := b[..|b| - 1], b[|b| - 1];
      assert a + b == (a + b') + [last] && b == b' + [last];
      TriplesConcat(azure, a, b');
      TriplesNext(azure, a + b', last);
      TriplesNext(azure, b', last);
    }
  }

  /** The resources come in the order of the subscriptions, of the groups of each, and of the
      roles for each group. */
  lemma {:induction false} ListedInOrder(azure: Azure, subscriptions: seq<string>)
    ensures Triples(azure, subscriptions) == AllInOrder(azure, subscriptions)
  {
    if subscriptions != [] {
      var first, rest := [subscriptions[0]], subscriptions[1..];
      ListedInOrder(azure, rest);
      assert subscriptions == first + rest;
      TriplesConcat(azure, first, rest);
      assert first == [] + first;
      TriplesNext(azure, [], subscriptions[0]);
      ProductInOrder(subscriptions[0], azure.groups(subscriptions[0]).All(), azure.roles(subscriptions[0]).All());
    }
  }

  /** How the three listings are split into pages does not matter. */
  lemma PageSplitIrrelevant(a: Azure, b: Azure)
    requires Listed(a).Emits? && Listed(b).Emits?
    requires a.subscriptions.All() == b.subscriptions.All()
    requires forall s | s in a.subscriptions.All() ::
               a.roles(s).All() == b.roles(s).All() && a.groups(s).All() == b.groups(s).All()
    ensures Listed(a) == Listed(b)
  {
    SameTriples(a, b, a.subscriptions.All());
  }

  // ---- grants ----

  /** `Grants` reads the scope's listing page by page, uncached. */
  function ScopeGrants(resource: ResourceId, listing: Listing<RoleAssignment>, graph: Graph): GrantsReply {
    var (_, subscription, role) := ResourceGroupParts(resource.resource);
    var r := Report(Flatten(listing.Served()), RoleDefinitionID(subscription, role), resource, graph);
    if r.Reported? && !listing.Complete() then GrantsReply.Failed(RemoteFailure) else r
  }

  /** What `Grants` replies: from a complete listing, what its assignments add, by the kinds of
      their principals; when a page fails, never grants, but the failure, or a panic when an
      assignment served before it is to a principal of unknown kind. */
  lemma ScopeGrantsExactly(resource: ResourceId, listing: Listing<RoleAssignment>, graph: Graph)
    ensures var (_, subscription, role) := ResourceGroupParts(resource.resource);
            var rd := RoleDefinitionID(subscription, role);
            var reply := ScopeGrants(resource, listing, graph);
            if listing.failAt >= |listing.pages| then Answers(reply, listing.All(), rd, resource, graph)
            else if exists a :: a in Flatten(listing.pages[..listing.failAt]) && OfUnknownKind(a, rd, graph) then reply == Panicked
            else reply == GrantsReply.Failed(RemoteFailure)
  {
    var (_, subscription, role) := ResourceGroupParts(resource.resource);
    ReportAnswers(Flatten(listing.Served()), RoleDefinitionID(subscription, role), resource, graph);
  }

  /** One more page: its grants follow those of the earlier pages, and a panic on it ends the call. */
  lemma ReportPage(listing: Listing<RoleAssignment>, n: nat, rd: string, resource: ResourceId, graph: Graph)
    requires n < |listing.Served()|
    ensures Report(Flatten(listing.pages[..n + 1]), rd, resource, graph) ==
            Followed(Report(Flatten(listing.pages[..n]), rd, resource, graph), Report(listing.pages[n], rd, resource, graph))
    ensures !Report(Flatten(listing.pages[..n + 1]), rd, resource, graph).Reported? ==>
              Report(Flatten(listing.Served()), rd, resource, graph) == Report(Flatten(listing.pages[..n + 1]), rd, resource, graph)
  {
    FlattenNext(listing.pages, n);
    ReportConcat(Flatten(listing.pages[..n]), listing.pages[n], rd, resource, graph);
    ServedFrom(listing, n + 1);
    ReportConcat(Flatten(listing.pages[..n + 1]), Flatten(listing.Served()[n + 1..]), rd, resource, graph);
  }

  class ResourceGroupRoleBuilder {
    const store: RoleAssignmentStore

    constructor (store: RoleAssignmentStore)
      ensures this.store == store
    {
      this.store := store;
    }

    method Grants(resource: ResourceId, listing: Listing<RoleAssignment>, graph: Graph) returns (r: GrantsReply)
      ensures r == ScopeGrants(resource, listing, graph)
    {
      var subscriptionID, roleID := "", "";
      var arr := Split(resource.resource, ':');
      if |arr| == 3 {
        subscriptionID := arr[1];
        roleID := arr[2];
      }
      var roleDefinitionID := RoleDefinitionID(subscriptionID, roleID);
      var rv := [];
      var next := 0;
      while next < |listing.pages|
        invariant 0 <= next <= |listing.Served()|
        invariant Report(Flatten(listing.pages[..next]), roleDefinitionID, resource, graph) == Reported(rv)
      {
        if next == listing.failAt {
          return GrantsReply.Failed(RemoteFailure);
        }
        var page := ReportGrants(listing.pages[next], roleDefinitionID, resource, graph);
        ReportPage(listing, next, roleDefinitionID, resource, graph);
        if !page.Reported? {
          return page;
        }
        rv := rv + page.grants;
        next := next + 1;
      }
      assert listing.pages[..next] == listing.pages;
      return Reported(rv);
    }

    method Grant(principal: ResourceId, entitlement: Entitlement, name: string, fault: Fault) returns (err: Option<Error>)
      modifies store
      ensures (store.entries, err) ==
              GrantEffect(old(store.entries), ResourceGroupTarget(entitlement.resource.resource), principal, name, fault)
    {
      if principal.resourceType != USER {
        return Some(UsersOnly);
      }
      var entitlementResource := entitlement.resource.resource;
      if ':' !in entitlementResource {
        return Some(InvalidRoleID);
      }
      var entitlementIDs := Split(entitlementResource, ':');
      if |entitlementIDs| != 3 {
        return Some(InvalidRoleID);
      }
      var resourceGroupId, subscriptionId, roleId := entitlementIDs[0], entitlementIDs[1], entitlementIDs[2];
      var scope := ResourceGroupScope(subscriptionId, resourceGroupId);
      var parameters := Binding(principal.resource, RoleDefinitionID(subscriptionId, roleId));
      var reply := store.Create(scope, name, parameters, fault);
      err := if reply.TransportError? then Some(RemoteFailure) else None;
    }

    method Revoke(grant: Grant, listing: Listing<RoleAssignment>, fault: Fault) returns (err: Option<Error>)
      modifies store
      ensures (store.entries, err) ==
              RevokeEffect(old(store.entries), ResourceGroupTarget(grant.entitlement.resource.resource),
                           grant.principal, listing, fault)
    {
      if grant.principal.resourceType != USER {
        return Some(UsersOnly);
      }
      var entitlementResource := grant.entitlement.resource.resource;
      if ':' !in entitlementResource {
        return Some(InvalidRoleID);
      }
      var entitlementIDs := Split(entitlementResource, ':');
      if |entitlementIDs| != 3 {
        return Some(InvalidRoleID);
      }
      var resourceGroupID, subscriptionId, roleID := entitlementIDs[0], entitlementIDs[1], entitlementIDs[2];
      var scope := ResourceGroupScope(subscriptionId, resourceGroupID);
      var roleAssignmentName, _ := GetAssignmentID(listing, Binding(grant.principal.resource, RoleDefinitionID(subscriptionId, roleID)));
      if roleAssignmentName.Err? {
        return Some(roleAssignmentName.error);
      }
      var reply := store.Delete(scope, roleAssignmentName.value, fault);
      if reply.DeleteFailed? {
        return Some(RemoteFailure);
      }
      if reply.NothingDeleted? {
        return Some(NotDeleted);
      }
      return None;
    }
  }

  /** The provisioning scenario for a resource listed by `List`, at its resource group's scope.
      `shows` says which scopes the resource group's listing covers. */
  lemma {:induction false} ResourceGroupProvisioningCycle(entries: Entries, triple: Triple, p: string, name: string, name': string,
                                                          shows: string -> bool, graph: Graph, lists: Listings)
    requires ColonFree(triple)
    requires CycleSetup(entries,
                        Target(ResourceGroupScope(triple.subscription, triple.group),
                               RoleDefinitionID(triple.subscription, triple.role)),
                        p, name, name', shows, graph, lists)
    ensures var resource := ResourceOf(triple).id;
            CycleOutcome(entries, ResourceGroupTarget(resource.resource), resource, p, name, name', lists,
                         l => ScopeGrants(resource, l, graph))
  {
    var resource := ResourceOf(triple).id;
    ResourceGroupIdRoundTrip(triple.group, triple.subscription, triple.role);
    var t := Target(ResourceGroupScope(triple.subscription, triple.group), RoleDefinitionID(triple.subscription, triple.role));
    forall l: Listing<RoleAssignment> | l.Complete()
      ensures ScopeGrants(resource, l, graph) == Synced(l, t, resource, graph)
    {
      ReportIsFilter(l.All(), t.roleDefinitionID, resource, graph);
    }
    ProvisioningCycle(entries, t, resource, p, name, name', shows, graph, lists, l => ScopeGrants(resource, l, graph));
  }

  /** What revoking a reported user grant of a resource comes to, as for a subscription's
      role, at the scope of the resource group: the sync and the search read one listing. */
  lemma {:induction false} ReportedGrantRevocable(entries: Entries, triple: Triple, graph: Graph,
                                                  listing: Listing<RoleAssignment>, shows: string -> bool,
                                                  search: Listing<RoleAssignment>, g: Grant)
    requires ColonFree(triple)
    requires Enumerates(listing, entries, shows) && Enumerates(search, entries, shows)
    requires var reply := ScopeGrants(ResourceOf(triple).id, listing, graph); reply.Reported? && g in reply.grants
    requires g.principal.resourceType == USER
    ensures var scope := ResourceGroupScope(triple.subscription, triple.group);
            var b := Binding(g.principal.resource, RoleDefinitionID(triple.subscription, triple.role));
            && Revoked(entries, ResourceGroupTarget(g.entitlement.resource.resource), g.principal, search, scope, b)
            && (AlwaysRevoked(entries, shows, Target(scope, b.roleDefinitionID), g.principal.resource)
                <==> NamedAt(entries, shows, scope, b))
  {
    ResourceGroupIdRoundTrip(triple.group, triple.subscription, triple.role);
    ReportedRevocable(entries, Target(ResourceGroupScope(triple.subscription, triple.group),
                                      RoleDefinitionID(triple.subscription, triple.role)),
                      ResourceOf(triple).id, graph, listing, shows, search, g);
  }

  // Each step of the scenario is a separate run of the connector: a new builder.

  method SyncOnce(store: RoleAssignmentStore, resource: ResourceId, listing: Listing<RoleAssignment>, graph: Graph)
    returns (r: GrantsReply)
    ensures r == ScopeGrants(resource, listing, graph)
  {
    var builder := new ResourceGroupRoleBuilder(store);
    r := builder.Grants(resource, listing, graph);
  }

  method GrantOnce(store: RoleAssignmentStore, principal: ResourceId, entitlement: Entitlement, name: string)
    returns (err: Option<Error>)
    modifies store
    ensures (store.entries, err) ==
            GrantEffect(old(store.entries), ResourceGroupTarget(entitlement.resource.resource), principal, name, NoFault)
  {
    var builder := new ResourceGroupRoleBuilder(store);
    err := builder.Grant(principal, entitlement, name, NoFault);
  }

  method RevokeOnce(store: RoleAssignmentStore, grant: Grant, listing: Listing<RoleAssignment>) returns (err: Option<Error>)
    modifies store
    ensures (store.entries, err) ==
            RevokeEffect(old(store.entries), ResourceGroupTarget(grant.entitlement.resource.resource), grant.principal,
                         listing, NoFault)
  {
    var builder := new ResourceGroupRoleBuilder(store);
    err := builder.Revoke(grant, listing, NoFault);
  }

  /** Sync, grant, sync, and the grant again. */
  method GrantTwice(store: RoleAssignmentStore, resource: ResourceId, user: ResourceId, name: string, name': string,
                    graph: Graph, before: Listing<RoleAssignment>, granted: Listing<RoleAssignment>)
    returns (s0: GrantsReply, e0: Option<Error>, s1: GrantsReply, e1: Option<Error>)
    modifies store
    ensures s0 == ScopeGrants(resource, before, graph) && s1 == ScopeGrants(resource, granted, graph)
    ensures var once := GrantEffect(old(store.entries), ResourceGroupTarget(resource.resource), user, name, NoFault);
            e0 == once.1
            && (store.entries, e1) == GrantEffect(once.0, ResourceGroupTarget(resource.resource), user, name', NoFault)
  {
    var entitlement := Entitlement(NewEntitlementID(resource, ASSIGNED), resource);
    s0 := SyncOnce(store, resource, before, graph);
    e0 := GrantOnce(store, user, entitlement, name);
    s1 := SyncOnce(store, resource, granted, graph);
    e1 := GrantOnce(store, user, entitlement, name');
  }

  /** A revoke, and the same revoke again. */
  method RevokeTwice(store: RoleAssignmentStore, grant: Grant, search: Listing<RoleAssignment>, search': Listing<RoleAssignment>)
    returns (e2: Option<Error>, e3: Option<Error>)
    modifies store
    ensures var target := ResourceGroupTarget(grant.entitlement.resource.resource);
            var once := RevokeEffect(old(store.entries), target, grant.principal, search, NoFault);
            e2 == once.1 && (store.entries, e3) == RevokeEffect(once.0, target, grant.principal, search', NoFault)
  {
    e2 := RevokeOnce(store, grant, search);
    e3 := RevokeOnce(store, grant, search');
  }

  /** The calls of the scenario on the builders themselves, for a resource whose outcome is known. */
  method ScenarioCalls(store: RoleAssignmentStore, resource: ResourceId, p: string, name: string, name': string,
                       graph: Graph, lists: Listings)
    returns (syncs: seq<GrantsReply>, errors: seq<Option<Error>>)
    requires CycleOutcome(store.entries, ResourceGroupTarget(resource.resource), resource, p, name, name', lists,
                          l => ScopeGrants(resource, l, graph))
    modifies store
    ensures |syncs| == 4 && ReportsNothing(syncs[0], p) && ReportsOnce(syncs[1], resource, p)
            && ReportsNothing(syncs[2], p) && ReportsOnce(syncs[3], resource, p)
    ensures errors == [None, None, None, Some(AssignmentNotFound), None]
    ensures var t := ResourceGroupTarget(resource.resource).value;
            store.entries == old(store.entries)[Key(t.scope, name') := Binding(p, t.roleDefinitionID)]
  {
    ghost var g := NewGrant(resource, ASSIGNED, ResourceId(USER, p));
    assert CycleStores(store.entries, ResourceGroupTarget(resource.resource), g, name, name', lists);
    assert CycleSyncs(resource, p, lists, l => ScopeGrants(resource, l, graph));
    var user := ResourceId(USER, p);
    var s0, e0, s1, e1 := GrantTwice(store, resource, user, name, name', graph, lists.before, lists.granted);
    assert ReportsOnce(s1, resource, p);
    var reported := Held(s1.grants, p)[0];
    assert reported == g;
    var e2, e3 := RevokeTwice(store, reported, lists.search, lists.search');
    var s2 := SyncOnce(store, resource, lists.revoked, graph);
    var e4 := GrantOnce(store, user, Entitlement(NewEntitlementID(resource, ASSIGNED), resource), name');
    var s3 := SyncOnce(store, resource, lists.regranted, graph);
    syncs, errors := [s0, s1, s2, s3], [e0, e1, e2, e3, e4];
  }

  /** The scenario on the builders themselves, for a resource `List` emits for the triple. */
  method Scenario(store: RoleAssignmentStore, triple: Triple, p: string, name: string, name': string,
                  ghost shows: string -> bool, graph: Graph, lists: Listings)
    returns (syncs: seq<GrantsReply>, errors: seq<Option<Error>>)
    requires ColonFree(triple)
    requires CycleSetup(store.entries,
                        Target(ResourceGroupScope(triple.subscription, triple.group),
                               RoleDefinitionID(triple.subscription, triple.role)),
                        p, name, name', shows, graph, lists)
    modifies store
    ensures var resource := ResourceOf(triple).id;
            |syncs| == 4 && ReportsNothing(syncs[0], p) && ReportsOnce(syncs[1], resource, p)
            && ReportsNothing(syncs[2], p) && ReportsOnce(syncs[3], resource, p)
    ensures errors == [None, None, None, Some(AssignmentNotFound), None]
    ensures store.entries == old(store.entries)[Key(ResourceGroupScope(triple.subscription, triple.group), name')
                                                := Binding(p, RoleDefinitionID(triple.subscription, triple.role))]
  {
    ResourceGroupIdRoundTrip(triple.group, triple.subscription, triple.role);
    ResourceGroupProvisioningCycle(store.entries, triple, p, name, name', shows, graph, lists);
    syncs, errors := ScenarioCalls(store, ResourceOf(triple).id, p, name, name', graph, lists);
  }
}
