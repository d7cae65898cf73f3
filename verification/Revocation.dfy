/** What revokes and syncs have to do with each other, for both builders: which reported grants
    can be revoked, and how grants and revokes change what a sync reports. The search of a
    revoke asks Azure for the listing of a scope that a sync of that scope asks for. */
module Revocation {
  import opened Wrappers
  import opened Resources
  import opened Identifiers
  import opened Paging
  import opened Directory
  import opened Assignments
  import opened Provisioning

  // ---- what a revoke of a reported grant comes to ----

  /** A revoke without faults of a user's role, from a listing of the store: it reports that
      there is none exactly when none is shown; else it deletes what holds the first shown
      one's name at its own scope, and fails when nothing does. */
  lemma RevokeOutcome(listing: Listing<RoleAssignment>, entries: Entries, shows: string -> bool, t: Target, p: string)
    requires Enumerates(listing, entries, shows)
    ensures var b := Binding(p, t.roleDefinitionID);
            var found := FirstMatch(listing.All(), b);
            RevokeEffect(entries, Some(t), ResourceId(USER, p), listing, NoFault) ==
            if Unseen(entries, shows, b) then (entries, Some(AssignmentNotFound))
            else if found.Some? && Key(t.scope, found.value) in entries then (entries - {Key(t.scope, found.value)}, None)
            else (entries, Some(NotDeleted))
    ensures !Unseen(entries, shows, Binding(p, t.roleDefinitionID)) ==> FirstMatch(listing.All(), Binding(p, t.roleDefinitionID)).Some?
  {
    var b := Binding(p, t.roleDefinitionID);
    if Unseen(entries, shows, b) {
      FindNone(listing, entries, shows, b);
    } else {
      var k :| k in entries && shows(k.scope) && entries[k] == b;
      var a := RoleAssignment(k.scope, k.name, p, t.roleDefinitionID);
      assert Holds(entries, a);
      assert a in listing.All() && Is(a, b);
      FirstMatchMeaning(listing.All(), b);
      var name := FirstMatch(listing.All(), b).value;
      assert Key(t.scope, name) !in entries ==> entries - {Key(t.scope, name)} == entries;
    }
  }

  /** The revoke succeeds whatever the order and page split of the listing. */
  ghost predicate AlwaysRevoked(entries: Entries, shows: string -> bool, t: Target, p: string) {
    forall listing | Enumerates(listing, entries, shows) ::
      RevokeEffect(entries, Some(t), ResourceId(USER, p), listing, NoFault).1 == None
  }

  /** Every shown assignment of the binding has a name that is in use at the scope. */
  ghost predicate NamedAt(entries: Entries, shows: string -> bool, scope: string, b: Binding) {
    forall k | k in entries && shows(k.scope) && entries[k] == b :: Key(scope, k.name) in entries
  }

  /** A user's role can be revoked, however Azure lists the assignments, exactly when one is
      shown and all that are shown have names in use at the target's own scope. Another
      one shown first makes the revoke fail, even though the user holds the role at the scope. */
  lemma RevocableExactly(entries: Entries, shows: string -> bool, t: Target, p: string)
    ensures var b := Binding(p, t.roleDefinitionID);
            AlwaysRevoked(entries, shows, t, p) <==> !Unseen(entries, shows, b) && NamedAt(entries, shows, t.scope, b)
  {
    var b := Binding(p, t.roleDefinitionID);
    if Unseen(entries, shows, b) {
      var s := ListAll(entries, shows);
      var listing := OnePage(s);
      assert Enumerates(listing, entries, shows);
      RevokeOutcome(listing, entries, shows, t, p);
      assert !AlwaysRevoked(entries, shows, t, p);
    } else if k :| k in entries && shows(k.scope) && entries[k] == b && Key(t.scope, k.name) !in entries {
      var listing := ListFrom(entries, shows, k);
      RevokeOutcome(listing, entries, shows, t, p);
      assert Is(listing.All()[0], b);
      assert !AlwaysRevoked(entries, shows, t, p) && !NamedAt(entries, shows, t.scope, b);
    } else {
      forall listing | Enumerates(listing, entries, shows)
        ensures RevokeEffect(entries, Some(t), ResourceId(USER, p), listing, NoFault).1 == None
      {
        RevokeOutcome(listing, entries, shows, t, p);
        FirstMatchMeaning(listing.All(), b);
        var a :| a in listing.All() && Is(a, b) && FirstMatch(listing.All(), b) == Some(a.name);
        assert Holds(entries, a) && shows(a.scope);
        assert Key(a.scope, a.name) in entries;
      }
    }
  }

  /** The revoke of a binding whose assignments the search shows: it finds one, and succeeds
      by deleting it when its name is in use at the scope. */
  ghost predicate Revoked(entries: Entries, target: Option<Target>, principal: ResourceId,
                          search: Listing<RoleAssignment>, scope: string, b: Binding) {
    var found := FirstMatch(search.All(), b);
    && found.Some?
    && RevokeEffect(entries, target, principal, search, NoFault) ==
       if Key(scope, found.value) in entries then (entries - {Key(scope, found.value)}, None) else (entries, Some(NotDeleted))
  }

  /** What revoking a reported user grant comes to, when the search asks for the listing
      that the sync was made from. */
  lemma ReportedRevocable(entries: Entries, t: Target, resource: ResourceId, graph: Graph, listing: Listing<RoleAssignment>,
                          shows: string -> bool, search: Listing<RoleAssignment>, g: Grant)
    requires Enumerates(listing, entries, shows) && Enumerates(search, entries, shows)
    requires Synced(listing, t, resource, graph).Reported? && g in Synced(listing, t, resource, graph).grants
    requires g.principal.resourceType == USER
    ensures var b := Binding(g.principal.resource, t.roleDefinitionID);
            && g.entitlement.resource == resource
            && Revoked(entries, Some(t), g.principal, search, t.scope, b)
            && (AlwaysRevoked(entries, shows, t, g.principal.resource) <==> NamedAt(entries, shows, t.scope, b))
  {
    var a := ReportedIsListed(listing.All(), t.roleDefinitionID, resource, graph, g);
    assert Holds(entries, a) && shows(a.scope);
    assert Key(a.scope, a.name) in entries;
    RevokeOutcome(search, entries, shows, t, g.principal.resource);
    RevocableExactly(entries, shows, t, g.principal.resource);
  }

  /** Everything the listing is to show, in some order. */
  lemma {:induction false} ListAll(entries: Entries, shows: string -> bool) returns (s: seq<RoleAssignment>)
    ensures Distinct(s) && forall a :: a in s <==> Holds(entries, a) && shows(a.scope)
    decreases |entries|
  {
    if entries == map[] {
      s := [];
    } else {
      var k :| k in entries;
      var rest := ListAll(entries - {k}, shows);
      var a := RoleAssignment(k.scope, k.name, entries[k].principalID, entries[k].roleDefinitionID);
      s := if shows(k.scope) then [a] + rest else rest;
      assert forall x | x in rest :: x != a;
    }
  }

  lemma OnePage(s: seq<RoleAssignment>) returns (listing: Listing<RoleAssignment>)
    ensures listing.Complete() && listing.All() == s
  {
    listing := Listing([s], 1);
    assert listing.All() == s + Flatten(listing.pages[1..]);
  }

  /** A listing that shows the assignment of key `k` first. */
  lemma ListFrom(entries: Entries, shows: string -> bool, k: Key) returns (listing: Listing<RoleAssignment>)
    requires k in entries && shows(k.scope)
    ensures Enumerates(listing, entries, shows)
    ensures listing.All() != []
    ensures listing.All()[0] == RoleAssignment(k.scope, k.name, entries[k].principalID, entries[k].roleDefinitionID)
  {
    var a := RoleAssignment(k.scope, k.name, entries[k].principalID, entries[k].roleDefinitionID);
    var rest := ListAll(entries - {k}, shows);
    listing := OnePage([a] + rest);
    assert forall x | x in rest :: x != a;
  }

  /** With unique names, a user's role can be revoked, however Azure lists the assignments,
      exactly when one is shown and all that are shown are made at the target's own scope;
      and a revoke deletes no other user's assignment and no other role's. */
  lemma RevocableAtScope(entries: Entries, shows: string -> bool, t: Target, p: string)
    requires NamesUnique(entries)
    ensures var b := Binding(p, t.roleDefinitionID);
            AlwaysRevoked(entries, shows, t, p) <==>
            Shown(entries, shows, b) != {} && forall k | k in Shown(entries, shows, b) :: k.scope == t.scope
    ensures forall listing | Enumerates(listing, entries, shows) ::
              RevokesOwn(entries, RevokeEffect(entries, Some(t), ResourceId(USER, p), listing, NoFault), t.scope, Binding(p, t.roleDefinitionID))
  {
    var b := Binding(p, t.roleDefinitionID);
    RevocableExactly(entries, shows, t, p);
    if k :| k in entries && shows(k.scope) && entries[k] == b {
      assert k in Shown(entries, shows, b);
    }
    assert NamedAt(entries, shows, t.scope, b) <==> forall k | k in Shown(entries, shows, b) :: k.scope == t.scope by {
      forall k | k in Shown(entries, shows, b) && Key(t.scope, k.name) in entries ensures k.scope == t.scope {
        assert k.name == Key(t.scope, k.name).name;
      }
      forall k | k in Shown(entries, shows, b) && k.scope == t.scope ensures Key(t.scope, k.name) in entries {
        assert k == Key(t.scope, k.name);
      }
    }
    forall listing | Enumerates(listing, entries, shows)
      ensures RevokesOwn(entries, RevokeEffect(entries, Some(t), ResourceId(USER, p), listing, NoFault), t.scope, b)
    {
      FoundOwn(listing, entries, shows, t, p);
    }
  }

  /** The keys of the shown assignments of the binding. */
  ghost function Shown(entries: Entries, shows: string -> bool, b: Binding): set<Key> {
    set k | k in entries && shows(k.scope) && entries[k] == b
  }

  /** The revoke fails and changes nothing, or deletes one assignment of the binding at the scope. */
  ghost predicate RevokesOwn(entries: Entries, effect: (Entries, Option<Error>), scope: string, b: Binding) {
    if effect.1 == None then exists name :: Item(entries, Key(scope, name), b) && effect.0 == entries - {Key(scope, name)}
    else effect.0 == entries
  }

  lemma FoundOwn(listing: Listing<RoleAssignment>, entries: Entries, shows: string -> bool, t: Target, p: string)
    requires NamesUnique(entries) && Enumerates(listing, entries, shows)
    ensures RevokesOwn(entries, RevokeEffect(entries, Some(t), ResourceId(USER, p), listing, NoFault), t.scope, Binding(p, t.roleDefinitionID))
  {
    var b := Binding(p, t.roleDefinitionID);
    RevokeOutcome(listing, entries, shows, t, p);
    if RevokeEffect(entries, Some(t), ResourceId(USER, p), listing, NoFault).1 == None {
      FirstMatchMeaning(listing.All(), b);
      var a :| a in listing.All() && Is(a, b) && FirstMatch(listing.All(), b) == Some(a.name);
      assert Holds(entries, a);
      assert Key(a.scope, a.name) == Key(t.scope, a.name);
      assert Item(entries, Key(t.scope, a.name), b);
    }
  }

  // ---- a sync counts what the store holds ----

  /** The keys of the listed assignments of the binding. */
  ghost function KeysOf(list: seq<RoleAssignment>, b: Binding): set<Key> {
    set a | a in list && Is(a, b) :: Key(a.scope, a.name)
  }

  lemma {:induction false} SelectCount(list: seq<RoleAssignment>, b: Binding)
    requires Distinct(list)
    ensures |Select(list, a => Is(a, b))| == |KeysOf(list, b)|
  {
    if list != [] {
      var first, rest := list[0], list[1..];
      SelectCount(rest, b);
      assert list == [first] + rest;
      if Is(first, b) {
        assert KeysOf(list, b) == KeysOf(rest, b) + {Key(first.scope, first.name)};
        forall a | a in rest && Is(a, b) ensures Key(a.scope, a.name) != Key(first.scope, first.name) {
        }
      } else {
        assert KeysOf(list, b) == KeysOf(rest, b);
      }
    }
  }

  /** How many grants a sync reports to the principal. */
  function Reports(sync: GrantsReply, p: string): nat {
    if sync.Reported? then |Held(sync.grants, p)| else 0
  }

  /** A sync reports a user's role exactly as often as the listing shows it assigned. */
  lemma SyncCounts(listing: Listing<RoleAssignment>, entries: Entries, shows: string -> bool,
                   t: Target, p: string, resource: ResourceId, graph: Graph)
    requires Syncs(listing, entries, shows, t, graph) && PrincipalType(graph, p) == Ok(GRAPH_USER)
    ensures var sync := Synced(listing, t, resource, graph);
            sync.Reported? && Reports(sync, p) == |Shown(entries, shows, Binding(p, t.roleDefinitionID))|
  {
    var b := Binding(p, t.roleDefinitionID);
    ReportIsFilter(listing.All(), t.roleDefinitionID, resource, graph);
    HeldOfReport(listing.All(), b, resource, graph);
    SelectCount(listing.All(), b);
    forall k | k in Shown(entries, shows, b) ensures k in KeysOf(listing.All(), b) {
      var a := RoleAssignment(k.scope, k.name, p, t.roleDefinitionID);
      assert Holds(entries, a);
      assert a in listing.All() && Is(a, b);
    }
    assert KeysOf(listing.All(), b) == Shown(entries, shows, b);
  }

  /** Between the sync before a grant and the sync after it, a user's reported grants of the
      role grow by one when the create call made an assignment, and stay as they are when it
      conflicted, though both calls succeed. */
  lemma GrantCounts(before: Listing<RoleAssignment>, after: Listing<RoleAssignment>, entries: Entries, shows: string -> bool,
                    t: Target, p: string, name: string, resource: ResourceId, graph: Graph)
    requires shows(t.scope) && PrincipalType(graph, p) == Ok(GRAPH_USER)
    requires Syncs(before, entries, shows, t, graph)
    requires Syncs(after, GrantEffect(entries, Some(t), ResourceId(USER, p), name, NoFault).0, shows, t, graph)
    ensures var b := Binding(p, t.roleDefinitionID);
            Reports(Synced(after, t, resource, graph), p) ==
            Reports(Synced(before, t, resource, graph), p) + if Conflicts(entries, Key(t.scope, name), b) then 0 else 1
  {
    var b, k := Binding(p, t.roleDefinitionID), Key(t.scope, name);
    SyncCounts(before, entries, shows, t, p, resource, graph);
    SyncCounts(after, GrantEffect(entries, Some(t), ResourceId(USER, p), name, NoFault).0, shows, t, p, resource, graph);
    if !Conflicts(entries, k, b) {
      assert Shown(entries[k := b], shows, b) == Shown(entries, shows, b) + {k};
    }
  }

  /** Between the sync before a revoke and the sync after it, they shrink by one exactly when
      the revoke succeeds. */
  lemma RevokeCounts(before: Listing<RoleAssignment>, search: Listing<RoleAssignment>, after: Listing<RoleAssignment>,
                     entries: Entries, shows: string -> bool, t: Target, p: string, resource: ResourceId, graph: Graph)
    requires shows(t.scope) && PrincipalType(graph, p) == Ok(GRAPH_USER) && NamesUnique(entries)
    requires Syncs(before, entries, shows, t, graph) && Enumerates(search, entries, shows)
    requires Syncs(after, RevokeEffect(entries, Some(t), ResourceId(USER, p), search, NoFault).0, shows, t, graph)
    ensures Reports(Synced(after, t, resource, graph), p) ==
            Reports(Synced(before, t, resource, graph), p)
            - if RevokeEffect(entries, Some(t), ResourceId(USER, p), search, NoFault).1 == None then 1 else 0
  {
    var b := Binding(p, t.roleDefinitionID);
    var effect := RevokeEffect(entries, Some(t), ResourceId(USER, p), search, NoFault);
    SyncCounts(before, entries, shows, t, p, resource, graph);
    SyncCounts(after, effect.0, shows, t, p, resource, graph);
    FoundOwn(search, entries, shows, t, p);
    if effect.1 == None {
      var name :| Item(entries, Key(t.scope, name), b) && effect.0 == entries - {Key(t.scope, name)};
      assert Shown(effect.0, shows, b) == Shown(entries, shows, b) - {Key(t.scope, name)};
    }
  }
}
