/** The sync of one group's grants: each call of `Grants` fetches one page of members or
    owners and returns a token from which the next call resumes. */
module GroupSync {
  import opened Wrappers
  import opened Text
  import opened Resources
  import opened Identifiers
  import opened Paging
  import opened Slices
  import opened Pagination
  import opened GraphClient

  datatype Membership = Membership(id: string, odataType: string, servicePrincipalType: string)

  datatype MemberPage = MemberPage(members: seq<Membership>, nextLink: string)

  /** Graph's response to a request for each URL, with the URLs of a group's two listings. */
  datatype Graph = Graph(http: string -> Http<MemberPage>, membersURL: string -> string, ownersURL: string -> string) {
    function query(url: string): Reply<MemberPage> { Query(http(url)) }
  }

  const PAGE_CUTOFF := 50

  // ---- getGroupGrants ----

  /** The resource type of a member; None for the members the conversion drops. */
  function MemberType(m: Membership): Option<string> {
    if m.odataType == "#microsoft.graph.group" then Some(GROUP)
    else if m.odataType == "#microsoft.graph.user" then Some(USER)
    else if m.odataType == "#microsoft.graph.servicePrincipal" then
      if m.servicePrincipalType == "Application" then Some(ENTERPRISE_APPLICATION)
      else if m.servicePrincipalType == "ManagedIdentity" then Some(MANAGED_IDENTITY)
      else None
    else None
  }

  function GroupEntitlementID(group: string, relation: string): string {
    "group:" + group + ":" + relation
  }

  function MemberGrant(group: string, relation: string, m: Membership): Result<Option<Grant>> {
    match MemberType(m)
    case None => Ok(None)
    case Some(kind) =>
      var resource, principal := ResourceId(GROUP, group), ResourceId(kind, m.id);
      Ok(Some(Grant(
        FmtResourceGrant(resource, principal, group + ":" + relation),
        Entitlement(GroupEntitlementID(group, relation), resource),
        principal,
        if kind == GROUP then [GroupEntitlementID(m.id, MEMBERS)] else [])))
  }

  /** `getGroupGrants`. */
  function Conversion(group: string, relation: string, members: seq<Membership>): Result<seq<Grant>> {
    Converted(members, m => MemberGrant(group, relation, m))
  }

  /** The grants of a list of memberships. */
  function MemberGrants(group: string, relation: string, members: seq<Membership>): seq<Grant> {
    var r := Conversion(group, relation, members);
    if r.Ok? then r.value else []
  }

  /** The conversion of memberships never fails. */
  lemma MemberGrantsSucceed(group: string, relation: string, members: seq<Membership>)
    ensures Conversion(group, relation, members) == Ok(MemberGrants(group, relation, members))
  {
    ConvertedMeaning(members, m => MemberGrant(group, relation, m));
  }

  lemma MemberGrantsConcat(group: string, relation: string, a: seq<Membership>, b: seq<Membership>)
    ensures MemberGrants(group, relation, a + b) == MemberGrants(group, relation, a) + MemberGrants(group, relation, b)
  {
    var f := m => MemberGrant(group, relation, m);
    ConvertedConcat(a, b, f);
    MemberGrantsSucceed(group, relation, a);
    MemberGrantsSucceed(group, relation, b);
  }

  // ---- the same conversion, by the kinds of members ----

  /** A grant of the group's relation. */
  function GroupGrant(group: string, relation: string, kind: string, id: string, expandable: seq<string>): Grant {
    Grant("group-grant:" + group + ":" + kind + ":" + id + ":" + (group + ":" + relation),
          Entitlement("group:" + group + ":" + relation, ResourceId("group", group)), ResourceId(kind, id), expandable)
  }

  /** What one member adds: a grant for a user, a group, an application and a managed identity,
      of which the group's is expandable to its own members; nothing for another kind. */
  ghost predicate MemberAdds(m: Membership, group: string, relation: string, grants: seq<Grant>) {
    match m.odataType
    case "#microsoft.graph.user" => grants == [GroupGrant(group, relation, "user", m.id, [])]
    case "#microsoft.graph.group" => grants == [GroupGrant(group, relation, "group", m.id, ["group:" + m.id + ":members"])]
    case "#microsoft.graph.servicePrincipal" =>
      (match m.servicePrincipalType
       case "Application" => grants == [GroupGrant(group, relation, "enterprise_application", m.id, [])]
       case "ManagedIdentity" => grants == [GroupGrant(group, relation, "managed_identity", m.id, [])]
       case _ => grants == [])
    case _ => grants == []
  }

  /** The grants are what the members add, one after the other. */
  ghost predicate MembersAdd(members: seq<Membership>, group: string, relation: string, parts: seq<seq<Grant>>, grants: seq<Grant>) {
    && |parts| == |members| && grants == Flatten(parts)
    && forall i | 0 <= i < |members| :: MemberAdds(members[i], group, relation, parts[i])
  }

  ghost predicate Converts(members: seq<Membership>, group: string, relation: string, grants: seq<Grant>) {
    exists parts :: MembersAdd(members, group, relation, parts, grants)
  }

  lemma MadeGroupGrant(group: string, relation: string, m: Membership)
    requires MemberType(m).Some?
    ensures MemberGrant(group, relation, m) ==
            Ok(Some(GroupGrant(group, relation, MemberType(m).value, m.id,
                               if MemberType(m).value == "group" then ["group:" + m.id + ":members"] else [])))
  {
    assert "group" + "-grant:" == "group-grant:";
    assert ":" + MEMBERS == ":members";
    assert GroupEntitlementID(m.id, MEMBERS) == ("group:" + m.id) + (":" + MEMBERS);
  }

  lemma OneMemberAdds(group: string, relation: string, m: Membership)
    ensures MemberGrant(group, relation, m).Ok?
    ensures var g := MemberGrant(group, relation, m).value; MemberAdds(m, group, relation, if g.Some? then [g.value] else [])
  {
    if MemberType(m).Some? {
      MadeGroupGrant(group, relation, m);
    }
  }

  /** What the conversion of memberships makes, by the kinds of the members. */
  lemma {:induction false} MemberGrantsByKind(group: string, relation: string, members: seq<Membership>)
    ensures Converts(members, group, relation, MemberGrants(group, relation, members))
  {
    if members == [] {
      assert MembersAdd([], group, relation, [], []);
    } else {
      var m, rest := members[0], members[1..];
      MemberGrantsByKind(group, relation, rest);
      OneMemberAdds(group, relation, m);
      MemberGrantsSucceed(group, relation, rest);
      var g := MemberGrant(group, relation, m).value;
      var one := if g.Some? then [g.value] else [];
      var parts :| MembersAdd(rest, group, relation, parts, MemberGrants(group, relation, rest));
      assert MemberGrants(group, relation, members) == one + MemberGrants(group, relation, rest);
      var all := [one] + parts;
      assert all[1..] == parts;
      assert MembersAdd(members, group, relation, all, MemberGrants(group, relation, members));
    }
  }

  method GetGroupGrants(members: seq<Membership>, group: string, relation: string) returns (grants: Result<seq<Grant>>)
    ensures grants == Conversion(group, relation, members)
  {
    grants := ConvertErr(members, m => MemberGrant(group, relation, m));
  }

  // ---- one call ----

  datatype Page = Page(grants: seq<Grant>, next: Token)

  /** The stack a call works on: the token's, or the owners listing under the members
      listing when the token is empty. */
  function Opened(graph: Graph, group: string, token: Token): seq<PageState> {
    if StackOf(token) != [] then StackOf(token)
    else [PageState(graph.ownersURL(group), OWNERS, ""), PageState(graph.membersURL(group), MEMBERS, "")]
  }

  /** The next link a call follows: none after a page of at most fifty entries. */
  function Followed(page: MemberPage): string {
    if |page.members| <= PAGE_CUTOFF then "" else page.nextLink
  }

  /** `Grants` on a group. */
  function Call(graph: Graph, group: string, token: Token): Result<Page> {
    if token.Corrupt? then Err(CorruptToken)
    else
      var stack := Opened(graph, group, token);
      var ps := stack[|stack| - 1];
      match graph.query(ps.token)
      case Broken => Err(RemoteFailure)
      case Missing => Ok(Page([], NoToken))
      case Answer(page) =>
        match Conversion(group, ps.resourceTypeID, page.members)
        case Err(e) => Err(e)
        case Ok(grants) => Ok(Page(grants, TokenOf(Advanced(stack, Followed(page)))))
  }

  class GroupBuilder {
    const graph: Graph

    constructor (graph: Graph)
      ensures this.graph == graph
    {
      this.graph := graph;
    }

    method Grants(resource: ResourceId, token: Token) returns (r: Result<Page>)
      ensures r == Call(graph, resource.resource, token)
    {
      var b := new Bag();
      var err := b.Unmarshal(token);
      if err.Some? {
        return Err(err.value);
      }
      var current := b.Current();
      if current.None? {
        b.Push(PageState(graph.ownersURL(resource.resource), OWNERS, ""));
        b.Push(PageState(graph.membersURL(resource.resource), MEMBERS, ""));
      }
      assert b.Stack() == Opened(graph, resource.resource, token);
      var ps := b.Current();
      var reply := graph.query(ps.value.token);
      match reply {
        case Broken => return Err(RemoteFailure);
        case Missing => return Ok(Page([], NoToken));
        case Answer(resp) =>
          var nextLink := resp.nextLink;
          if |resp.members| <= 50 {
            nextLink := "";
          }
          var pageToken := b.NextToken(nextLink);
          var grants := GetGroupGrants(resp.members, resource.resource, ps.value.resourceTypeID);
          if grants.Err? {
            return Err(grants.error);
          }
          return Ok(Page(grants.value, pageToken));
      }
    }
  }

  // ---- a whole run ----

  /** How a run or a chain ends: at an empty token or a page without a link, or with an error. */
  datatype End = Finished | Failed

  datatype Sync = Sync(urls: seq<string>, grants: seq<Grant>, end: End)

  /** The URL a call queries. */
  function Queried(graph: Graph, group: string, token: Token): string {
    var stack := Opened(graph, group, token);
    stack[|stack| - 1].token
  }

  /** Calling `Grants` from `token` until the token is empty or a call fails: the URLs of
      the pages served, all grants, and the end. None when `calls` calls do not suffice. */
  function Run(graph: Graph, group: string, token: Token, calls: nat): Option<Sync>
    decreases calls
  {
    if calls == 0 then None
    else
      var url := Queried(graph, group, token);
      match Call(graph, group, token)
      case Err(_) => Some(Sync([], [], Failed))
      case Ok(page) =>
        if page.next.NoToken? then Some(Sync([url], page.grants, Finished))
        else
          match Run(graph, group, page.next, calls - 1)
          case None => None
          case Some(rest) => Some(Sync([url] + rest.urls, page.grants + rest.grants, rest.end))
  }

  // ---- page chains ----

  datatype Visit = Visit(url: string, page: MemberPage)

  /** The pages Graph serves from `url` on, each linking to the next, and the end of the chain. */
  ghost predicate IsChain(graph: Graph, url: string, chain: seq<Visit>, end: End)
    decreases |chain|
  {
    if chain == [] then
      end == Failed && graph.query(url).Broken?
    else
      && chain[0].url == url && graph.query(url) == Answer(chain[0].page)
      && if chain[0].page.nextLink == "" then |chain| == 1 && end == Finished
         else IsChain(graph, chain[0].page.nextLink, chain[1..], end)
  }

  /** The chain up to and with its first page of at most fifty entries. */
  function Cut(chain: seq<Visit>): seq<Visit> {
    if chain == [] then []
    else if |chain[0].page.members| <= PAGE_CUTOFF then [chain[0]]
    else [chain[0]] + Cut(chain[1..])
  }

  predicate Short(v: Visit) {
    |v.page.members| <= PAGE_CUTOFF
  }

  /** How the cut chain ends: a short page ends it well, whatever comes after. */
  function CutEnd(chain: seq<Visit>, end: End): End {
    if exists i :: 0 <= i < |chain| && Short(chain[i]) then Finished else end
  }

  function Urls(chain: seq<Visit>): seq<string> {
    if chain == [] then [] else [chain[0].url] + Urls(chain[1..])
  }

  function MembersOf(chain: seq<Visit>): seq<Membership> {
    if chain == [] then [] else chain[0].page.members + MembersOf(chain[1..])
  }

  /** The run of one relation's chain, then of what follows it. */
  function ChainThen(group: string, relation: string, chain: seq<Visit>, end: End, rest: Sync): Sync {
    var cut := Cut(chain);
    var grants := MemberGrants(group, relation, MembersOf(cut));
    if CutEnd(chain, end) == Finished then Sync(Urls(cut) + rest.urls, grants + rest.grants, rest.end)
    else Sync(Urls(cut), grants, CutEnd(chain, end))
  }

  /** Calls a chain takes: one for each page of its cut, and one more to meet a bad end. */
  function ChainCalls(chain: seq<Visit>, end: End): nat {
    |Cut(chain)| + if CutEnd(chain, end) == Finished then 0 else 1
  }

  lemma CutStep(chain: seq<Visit>, end: End)
    requires chain != [] && !Short(chain[0])
    ensures Cut(chain) == [chain[0]] + Cut(chain[1..])
    ensures CutEnd(chain, end) == CutEnd(chain[1..], end)
  {
    if i :| 0 <= i < |chain| && Short(chain[i]) {
      assert chain[1..][i - 1] == chain[i];
    }
    if i :| 0 <= i < |chain[1..]| && Short(chain[1..][i]) {
      assert chain[i + 1] == chain[1..][i];
    }
  }

  /** The run from the token ends as `sync`, after exactly `needed` calls. */
  ghost predicate EndsAfter(graph: Graph, group: string, token: Token, needed: nat, sync: Sync) {
    forall calls: nat :: Run(graph, group, token, calls) == if calls < needed then None else Some(sync)
  }

  /** The stack after a page: the page's link in place of its state, or what is below it. */
  function Under(below: seq<PageState>, top: PageState, link: string): Token {
    if link == "" then TokenOf(below) else Saved(below, top.(token := link))
  }

  /** One call that is answered with a page. */
  lemma CallAnswered(graph: Graph, group: string, below: seq<PageState>, top: PageState, page: MemberPage)
    requires graph.query(top.token) == Answer(page)
    ensures Queried(graph, group, Saved(below, top)) == top.token
    ensures Call(graph, group, Saved(below, top)) ==
            Ok(Page(MemberGrants(group, top.resourceTypeID, page.members), Under(below, top, Followed(page))))
  {
    var stack, link := below + [top], Followed(page);
    assert Opened(graph, group, Saved(below, top)) == stack && stack[..|stack| - 1] == below;
    MemberGrantsSucceed(group, top.resourceTypeID, page.members);
    if link == "" {
      assert Advanced(stack, link) == below;
    } else {
      assert Advanced(stack, link) == below + [top.(token := link)];
    }
  }

  lemma EndsStep(graph: Graph, group: string, below: seq<PageState>, top: PageState, page: MemberPage, needed: nat, rest: Sync)
    requires graph.query(top.token) == Answer(page)
    requires var next := Under(below, top, Followed(page));
             if next == NoToken then needed == 0 && rest == Sync([], [], Finished)
             else EndsAfter(graph, group, next, needed, rest)
    ensures EndsAfter(graph, group, Saved(below, top), needed + 1,
                      Sync([top.token] + rest.urls,
                           MemberGrants(group, top.resourceTypeID, page.members) + rest.grants, rest.end))
  {
    CallAnswered(graph, group, below, top, page);
    var here := MemberGrants(group, top.resourceTypeID, page.members);
    assert here + [] == here && [top.token] + [] == [top.token];
  }

  lemma EndsBadly(graph: Graph, group: string, below: seq<PageState>, top: PageState)
    requires graph.query(top.token).Broken?
    ensures EndsAfter(graph, group, Saved(below, top), 1, Sync([], [], Failed))
  {
    assert Opened(graph, group, Saved(below, top)) == below + [top];
  }

  /** Running the chain on top of the stack, then the rest of the stack. `rest` and
      `restCalls` are the run below it, which is not made when the stack holds nothing more. */
  lemma {:induction false} RunChain(graph: Graph, group: string, below: seq<PageState>, top: PageState,
                                    chain: seq<Visit>, end: End, rest: Sync, restCalls: nat)
    requires IsChain(graph, top.token, chain, end)
    requires if below == [] then rest == Sync([], [], Finished) && restCalls == 0
             else EndsAfter(graph, group, TokenOf(below), restCalls, rest)
    ensures EndsAfter(graph, group, Saved(below, top),
                      ChainCalls(chain, end) + if CutEnd(chain, end) == Finished then restCalls else 0,
                      ChainThen(group, top.resourceTypeID, chain, end, rest))
    decreases |chain|
  {
    if chain == [] {
      assert MemberGrants(group, top.resourceTypeID, []) == [];
      EndsBadly(graph, group, below, top);
    } else {
      var page := chain[0].page;
      if Followed(page) == "" {
        LastPage(graph, group, top, chain, end, rest);
        EndsStep(graph, group, below, top, page, restCalls, rest);
      } else {
        var top' := top.(token := Followed(page));
        var tail := ChainThen(group, top.resourceTypeID, chain[1..], end, rest);
        CutStep(chain, end);
        RunChain(graph, group, below, top', chain[1..], end, rest, restCalls);
        EndsStep(graph, group, below, top, page,
                 ChainCalls(chain[1..], end) + if CutEnd(chain[1..], end) == Finished then restCalls else 0, tail);
        ChainThenStep(group, top.resourceTypeID, chain, end, rest);
      }
    }
  }

  /** A chain whose first page's link is not followed: that page, then the rest of the stack. */
  lemma LastPage(graph: Graph, group: string, top: PageState, chain: seq<Visit>, end: End, rest: Sync)
    requires IsChain(graph, top.token, chain, end) && chain != [] && Followed(chain[0].page) == ""
    ensures var here := MemberGrants(group, top.resourceTypeID, chain[0].page.members);
            ChainThen(group, top.resourceTypeID, chain, end, rest) == Sync([top.token] + rest.urls, here + rest.grants, rest.end)
    ensures ChainCalls(chain, end) == 1 && CutEnd(chain, end) == Finished
  {
    EndOfChain(graph, top.token, chain, end);
    assert chain[0].page.members + [] == chain[0].page.members;
    assert [chain[0]][1..] == [] && [top.token] + [] == [top.token];
    assert MembersOf([chain[0]]) == chain[0].page.members;
    assert Urls([chain[0]]) == [top.token] + Urls([chain[0]][1..]);
  }

  /** A chain whose first page is not short: that page, then the rest of the chain. */
  lemma ChainThenStep(group: string, relation: string, chain: seq<Visit>, end: End, rest: Sync)
    requires chain != [] && !Short(chain[0])
    ensures var tail := ChainThen(group, relation, chain[1..], end, rest);
            ChainThen(group, relation, chain, end, rest) ==
            Sync([chain[0].url] + tail.urls, MemberGrants(group, relation, chain[0].page.members) + tail.grants, tail.end)
  {
    CutStep(chain, end);
    var cut := Cut(chain[1..]);
    VisitThen(chain[0], cut);
    MemberGrantsConcat(group, relation, chain[0].page.members, MembersOf(cut));
    Associative(MemberGrants(group, relation, chain[0].page.members), MemberGrants(group, relation, MembersOf(cut)), rest.grants);
    Associative([chain[0].url], Urls(cut), rest.urls);
  }

  lemma VisitThen(v: Visit, rest: seq<Visit>)
    ensures Urls([v] + rest) == [v.url] + Urls(rest)
    ensures MembersOf([v] + rest) == v.page.members + MembersOf(rest)
  {
    assert ([v] + rest)[1..] == rest;
  }

  lemma Associative<T>(a: seq<T>, b: seq<T>, c: seq<T>)
    ensures (a + b) + c == a + (b + c)
  {
  }

  /** A page whose link is not followed ends the cut chain. */
  lemma EndOfChain(graph: Graph, url: string, chain: seq<Visit>, end: End)
    requires IsChain(graph, url, chain, end) && chain != []
    ensures Followed(chain[0].page) == "" ==> Cut(chain) == [chain[0]] && CutEnd(chain, end) == Finished
    ensures |Cut(chain)| >= 1
  {
    if !Short(chain[0]) && Followed(chain[0].page) == "" {
      assert chain[1..] == [];
    }
  }

  /** What a sync of a group comes to: the members chain, then the owners chain. */
  function Expected(group: string, members: seq<Visit>, membersEnd: End, owners: seq<Visit>, ownersEnd: End): Sync {
    ChainThen(group, MEMBERS, members, membersEnd,
              ChainThen(group, OWNERS, owners, ownersEnd, Sync([], [], Finished)))
  }

  function ExpectedCalls(members: seq<Visit>, membersEnd: End, owners: seq<Visit>, ownersEnd: End): nat {
    ChainCalls(members, membersEnd) + if CutEnd(members, membersEnd) == Finished then ChainCalls(owners, ownersEnd) else 0
  }

  /** A run from the empty token ends after a number of calls known from the two chains, and
      comes to the members chain, then the owners chain, each page once, each chain cut
      right after its first page of at most fifty entries; the owners are not visited when
      the members chain ends badly before its cut. */
  lemma FullRun(graph: Graph, group: string, members: seq<Visit>, membersEnd: End, owners: seq<Visit>, ownersEnd: End)
    requires IsChain(graph, graph.membersURL(group), members, membersEnd)
    requires IsChain(graph, graph.ownersURL(group), owners, ownersEnd)
    ensures EndsAfter(graph, group, NoToken, ExpectedCalls(members, membersEnd, owners, ownersEnd),
                      Expected(group, members, membersEnd, owners, ownersEnd))
  {
    var ownersState := PageState(graph.ownersURL(group), OWNERS, "");
    var membersState := PageState(graph.membersURL(group), MEMBERS, "");
    var done := Sync([], [], Finished);
    var rest := ChainThen(group, OWNERS, owners, ownersEnd, done);
    assert TokenOf([ownersState]) == Saved([], ownersState);
    RunChain(graph, group, [], ownersState, owners, ownersEnd, done, 0);
    RunChain(graph, group, [ownersState], membersState, members, membersEnd, rest, ChainCalls(owners, ownersEnd));
    assert Opened(graph, group, NoToken) == Opened(graph, group, Saved([ownersState], membersState));
    SameStack(graph, group, NoToken, Saved([ownersState], membersState),
              ExpectedCalls(members, membersEnd, owners, ownersEnd), Expected(group, members, membersEnd, owners, ownersEnd));
  }

  /** Two tokens that open the same stack have the same run. */
  lemma SameStack(graph: Graph, group: string, token: Token, token': Token, needed: nat, sync: Sync)
    requires !token.Corrupt? && !token'.Corrupt? && Opened(graph, group, token) == Opened(graph, group, token')
    requires EndsAfter(graph, group, token', needed, sync)
    ensures EndsAfter(graph, group, token, needed, sync)
  {
    assert Call(graph, group, token) == Call(graph, group, token');
    forall calls: nat
      ensures Run(graph, group, token, calls) == if calls < needed then None else Some(sync)
    {
      assert Run(graph, group, token, calls) == Run(graph, group, token', calls);
    }
  }

  /** A run loses no page of a chain exactly when every page but the last has more than fifty entries. */
  lemma {:induction false} CutLosesNothing(chain: seq<Visit>)
    ensures Cut(chain) == chain <==> forall i | 0 <= i < |chain| - 1 :: !Short(chain[i])
    ensures Cut(chain) <= chain
  {
    if chain != [] {
      CutLosesNothing(chain[1..]);
      assert chain == [chain[0]] + chain[1..];
      if Short(chain[0]) {
      } else {
        assert Cut(chain)[1..] == Cut(chain[1..]);
        assert forall i | 0 <= i < |chain[1..]| :: chain[1..][i] == chain[i + 1];
      }
    }
  }

  /** The cut is right after the first page of fifty entries or fewer: no page before it is
      that short, and nothing behind it is visited. */
  lemma {:induction false} CutAtFifty(chain: seq<Visit>)
    ensures Cut(chain) <= chain
    ensures forall i | 0 <= i < |Cut(chain)| - 1 :: |chain[i].page.members| > 50
    ensures Cut(chain) != chain ==> Cut(chain) != [] && |Cut(chain)[|Cut(chain)| - 1].page.members| <= 50
  {
    if chain != [] {
      CutAtFifty(chain[1..]);
      assert chain == [chain[0]] + chain[1..];
      if |chain[0].page.members| > 50 {
        assert Cut(chain) == [chain[0]] + Cut(chain[1..]);
        assert forall i | 0 < i < |chain| :: chain[i] == chain[1..][i - 1];
      }
    }
  }

  /** With no short page before the end of either chain, a sync reports every membership
      of both listings, as one conversion of each whole listing would. */
  lemma {:induction false} CompleteRun(graph: Graph, group: string, members: seq<Visit>, owners: seq<Visit>, calls: nat)
    requires IsChain(graph, graph.membersURL(group), members, Finished)
    requires IsChain(graph, graph.ownersURL(group), owners, Finished)
    requires forall i | 0 <= i < |members| - 1 :: !Short(members[i])
    requires forall i | 0 <= i < |owners| - 1 :: !Short(owners[i])
    requires calls >= |members| + |owners|
    ensures Run(graph, group, NoToken, calls) ==
            Some(Sync(Urls(members) + Urls(owners),
                      MemberGrants(group, MEMBERS, MembersOf(members)) + MemberGrants(group, OWNERS, MembersOf(owners)),
                      Finished))
    ensures Converts(MembersOf(members), group, "members", MemberGrants(group, MEMBERS, MembersOf(members)))
    ensures Converts(MembersOf(owners), group, "owners", MemberGrants(group, OWNERS, MembersOf(owners)))
  {
    MemberGrantsByKind(group, "members", MembersOf(members));
    MemberGrantsByKind(group, "owners", MembersOf(owners));
    FullRun(graph, group, members, Finished, owners, Finished);
    CutLosesNothing(members);
    CutLosesNothing(owners);
    assert Urls(owners) + [] == Urls(owners);
    var g := MemberGrants(group, OWNERS, MembersOf(owners));
    assert g + [] == g;
  }

  /** A call has something to report only when Graph serves a page: the branch of `Grants`
      that skips a missing listing is never taken, and a 404, like every other bad response
      at any page, fails the call. */
  lemma BadResponseFails(graph: Graph, group: string, token: Token)
    requires !token.Corrupt?
    ensures var http := graph.http(Queried(graph, group, token));
            Call(graph, group, token).Ok? <==> http.Response? && http.status in {200, 201, 204} && http.body.Some?
    ensures Call(graph, group, token).Err? ==> Call(graph, group, token) == Err(RemoteFailure)
  {
    QueryMeaning(graph.http(Queried(graph, group, token)));
    var stack := Opened(graph, group, token);
    var reply := graph.query(Queried(graph, group, token));
    if reply.Answer? {
      MemberGrantsSucceed(group, stack[|stack| - 1].resourceTypeID, reply.value.members);
    }
  }

  /** A token that does not decode fails the call before anything is asked. */
  lemma CorruptTokenFails(graph: Graph, group: string)
    ensures Call(graph, group, Corrupt) == Err(CorruptToken)
  {
  }

  /** A group whose members listing answers 404 fails its sync with the first call,
      whatever its owners listing is. */
  lemma {:induction false} MissingGroupFails(graph: Graph, group: string, body: Option<MemberPage>)
    requires graph.http(graph.membersURL(group)) == Response(NOT_FOUND, body)
    ensures EndsAfter(graph, group, NoToken, 1, Sync([], [], Failed))
  {
    var owners := PageState(graph.ownersURL(group), OWNERS, "");
    var members := PageState(graph.membersURL(group), MEMBERS, "");
    EndsBadly(graph, group, [owners], members);
    assert Opened(graph, group, NoToken) == Opened(graph, group, Saved([owners], members));
    SameStack(graph, group, NoToken, Saved([owners], members), 1, Sync([], [], Failed));
  }

  // ---- the grants of a whole sync ----

  lemma MemberGrantsHead(group: string, relation: string, members: seq<Membership>)
    requires members != []
    ensures var one := MemberGrant(group, relation, members[0]).value;
            MemberGrants(group, relation, members) ==
            (if one.Some? then [one.value] else []) + MemberGrants(group, relation, members[1..])
  {
    MemberGrantsSucceed(group, relation, members);
    MemberGrantsSucceed(group, relation, members[1..]);
  }

  /** The grant is the one made for the membership in the relation of the group. */
  ghost predicate GrantFor(g: Grant, group: string, relation: string, m: Membership) {
    MemberGrant(group, relation, m) == Ok(Some(g))
  }

  /** Every grant of a list of memberships is made for one of them. */
  lemma {:induction false} MadeForMember(group: string, relation: string, members: seq<Membership>, g: Grant) returns (m: Membership)
    requires g in MemberGrants(group, relation, members)
    ensures m in members && GrantFor(g, group, relation, m)
  {
    assert MemberGrants(group, relation, []) == [];
    MemberGrantsHead(group, relation, members);
    if GrantFor(g, group, relation, members[0]) {
      m := members[0];
    } else {
      m := MadeForMember(group, relation, members[1..], g);
    }
  }

  predicate IsRelation(relation: string) {
    relation == MEMBERS || relation == OWNERS
  }

  lemma FreeNames(kind: string, relation: string)
    requires kind in {USER, GROUP, ENTERPRISE_APPLICATION, MANAGED_IDENTITY} && IsRelation(relation)
    ensures ':' !in kind && ':' !in relation && ':' !in "group-grant"
  {
  }

  function GrantIdParts(group: string, kind: string, id: string, relation: string): seq<string> {
    ["group-grant", group, kind, id, group, relation]
  }

  lemma SixParts(a: string, b: string, c: string, d: string, e: string, f: string)
    ensures Join([a, b, c, d, e, f], ':') ==
            a + [':'] + (b + [':'] + (c + [':'] + (d + [':'] + (e + [':'] + f))))
  {
    JoinStep(a, [b, c, d, e, f], ':');
    JoinStep(b, [c, d, e, f], ':');
    JoinStep(c, [d, e, f], ':');
    JoinStep(d, [e, f], ':');
    JoinStep(e, [f], ':');
    assert [a] + [b, c, d, e, f] == [a, b, c, d, e, f] && [b] + [c, d, e, f] == [b, c, d, e, f];
    assert [c] + [d, e, f] == [c, d, e, f] && [d] + [e, f] == [d, e, f] && [e] + [f] == [e, f];
  }

  lemma Regroup(a: string, b: string, c: string, d: string, e: string, f: string)
    ensures a + [':'] + (b + [':'] + (c + [':'] + (d + [':'] + (e + [':'] + f))))
         == a + ":" + b + ":" + c + ":" + d + ":" + (e + ":" + f)
  {
  }

  /** A group grant's ID is its six parts, joined. */
  lemma GrantIdJoined(g: Grant, group: string, relation: string, m: Membership)
    requires GrantFor(g, group, relation, m)
    ensures g.id == Join(GrantIdParts(group, MemberType(m).value, m.id, relation), ':')
  {
    var kind := MemberType(m).value;
    SixParts("group-grant", group, kind, m.id, group, relation);
    Regroup("group-grant", group, kind, m.id, group, relation);
    assert GROUP + "-grant:" == "group-grant" + ":";
  }

  /** The ID of a group grant tells its group, relation and principal. */
  lemma GrantIdInjective(g: Grant, group: string, relation: string, m: Membership,
                         g': Grant, group': string, relation': string, m': Membership)
    requires GrantFor(g, group, relation, m) && GrantFor(g', group', relation', m')
    requires ':' !in group && ':' !in m.id && ':' !in group' && ':' !in m'.id
    requires IsRelation(relation) && IsRelation(relation')
    requires g.id == g'.id
    ensures group == group' && relation == relation' && m.id == m'.id && g.principal == g'.principal
  {
    GrantIdJoined(g, group, relation, m);
    GrantIdJoined(g', group', relation', m');
    FreeNames(MemberType(m).value, relation);
    FreeNames(MemberType(m').value, relation');
    var a, b := GrantIdParts(group, MemberType(m).value, m.id, relation), GrantIdParts(group', MemberType(m').value, m'.id, relation');
    JoinInjective(a, b, ':');
    assert a[1] == b[1] && a[2] == b[2] && a[3] == b[3] && a[5] == b[5];
  }

  /** Memberships of one relation: distinct, with colon-free IDs. */
  ghost predicate ProperMembers(members: seq<Membership>) {
    && (forall m | m in members :: ':' !in m.id)
    && forall i, j | 0 <= i < j < |members| :: members[i].id != members[j].id
  }

  lemma DistinctConcat(a: seq<Grant>, b: seq<Grant>)
    requires DistinctIds(a) && DistinctIds(b)
    requires forall x, y | x in a && y in b :: x.id != y.id
    ensures DistinctIds(a + b)
  {
    forall i, j | 0 <= i < j < |a + b| ensures (a + b)[i].id != (a + b)[j].id {
      if i < |a| <= j {
        assert a[i] in a && b[j - |a|] in b;
      }
    }
  }

  lemma {:induction false} RelationDistinct(group: string, relation: string, members: seq<Membership>)
    requires ProperMembers(members) && ':' !in group && IsRelation(relation)
    ensures DistinctIds(MemberGrants(group, relation, members))
  {
    if members == [] {
      assert MemberGrants(group, relation, []) == [];
    } else {
      assert forall i | 0 <= i < |members[1..]| :: members[1..][i] == members[i + 1];
      MemberGrantsHead(group, relation, members);
      RelationDistinct(group, relation, members[1..]);
      var one := MemberGrant(group, relation, members[0]).value;
      if one.Some? {
        var rest := MemberGrants(group, relation, members[1..]);
        forall y | y in rest ensures one.value.id != y.id {
          var m := MadeForMember(group, relation, members[1..], y);
          if one.value.id == y.id {
            GrantIdInjective(one.value, group, relation, members[0], y, group, relation, m);
          }
        }
        DistinctConcat([one.value], rest);
      }
    }
  }

  /** The listings of one group, as a sync meets them. */
  datatype Roster = Roster(group: string, members: seq<Membership>, owners: seq<Membership>)

  function RosterGrants(r: Roster): seq<Grant> {
    MemberGrants(r.group, MEMBERS, r.members) + MemberGrants(r.group, OWNERS, r.owners)
  }

  function AllGrants(rosters: seq<Roster>): seq<Grant> {
    if rosters == [] then [] else RosterGrants(rosters[0]) + AllGrants(rosters[1..])
  }

  ghost predicate ProperRoster(r: Roster) {
    ':' !in r.group && ProperMembers(r.members) && ProperMembers(r.owners)
  }

  lemma MadeForRoster(r: Roster, g: Grant) returns (relation: string, m: Membership)
    requires g in RosterGrants(r)
    ensures IsRelation(relation) && GrantFor(g, r.group, relation, m)
    ensures if relation == MEMBERS then m in r.members else m in r.owners
  {
    if g in MemberGrants(r.group, MEMBERS, r.members) {
      relation := MEMBERS;
      m := MadeForMember(r.group, MEMBERS, r.members, g);
    } else {
      relation := OWNERS;
      m := MadeForMember(r.group, OWNERS, r.owners, g);
    }
  }

  lemma RosterDistinct(r: Roster)
    requires ProperRoster(r)
    ensures DistinctIds(RosterGrants(r))
  {
    RelationDistinct(r.group, MEMBERS, r.members);
    RelationDistinct(r.group, OWNERS, r.owners);
    var a, b := MemberGrants(r.group, MEMBERS, r.members), MemberGrants(r.group, OWNERS, r.owners);
    forall x, y | x in a && y in b ensures x.id != y.id {
      var m := MadeForMember(r.group, MEMBERS, r.members, x);
      var m' := MadeForMember(r.group, OWNERS, r.owners, y);
      if x.id == y.id {
        GrantIdInjective(x, r.group, MEMBERS, m, y, r.group, OWNERS, m');
      }
    }
    DistinctConcat(a, b);
  }

  lemma {:induction false} InSomeRoster(rosters: seq<Roster>, g: Grant) returns (i: nat)
    requires g in AllGrants(rosters)
    ensures i < |rosters| && g in RosterGrants(rosters[i])
  {
    var first, rest := RosterGrants(rosters[0]), rosters[1..];
    assert AllGrants(rosters) == first + AllGrants(rest);
    if g in first {
      i := 0;
    } else {
      var j := InSomeRoster(rest, g);
      i := j + 1;
      assert rest[j] == rosters[i];
    }
  }

  lemma RostersApart(r: Roster, x: Grant, r': Roster, y: Grant)
    requires ProperRoster(r) && ProperRoster(r') && r.group != r'.group
    requires x in RosterGrants(r) && y in RosterGrants(r')
    ensures x.id != y.id
  {
    var relation, m := MadeForRoster(r, x);
    var relation', m' := MadeForRoster(r', y);
    if x.id == y.id {
      GrantIdInjective(x, r.group, relation, m, y, r'.group, relation', m');
    }
  }

  /** All group grants of a sync, across groups, both relations and all principals, have
      pairwise distinct IDs. */
  lemma {:induction false} SyncIdsDistinct(rosters: seq<Roster>)
    requires forall i | 0 <= i < |rosters| :: ProperRoster(rosters[i])
    requires forall i, j | 0 <= i < j < |rosters| :: rosters[i].group != rosters[j].group
    ensures DistinctIds(AllGrants(rosters))
  {
    if rosters != [] {
      var rest := rosters[1..];
      assert forall i | 0 <= i < |rest| :: rest[i] == rosters[i + 1];
      SyncIdsDistinct(rest);
      RosterDistinct(rosters[0]);
      forall x, y | x in RosterGrants(rosters[0]) && y in AllGrants(rest) ensures x.id != y.id {
        var i := InSomeRoster(rest, y);
        RostersApart(rosters[0], x, rest[i], y);
      }
      DistinctConcat(RosterGrants(rosters[0]), AllGrants(rest));
    }
  }

  // ---- the grants of runs over many groups ----

  /** What Graph serves of one group: its two chains, however they end. */
  datatype Chains = Chains(group: string, members: seq<Visit>, membersEnd: End, owners: seq<Visit>, ownersEnd: End)

  ghost predicate ServedBy(graph: Graph, c: Chains) {
    && IsChain(graph, graph.membersURL(c.group), c.members, c.membersEnd)
    && IsChain(graph, graph.ownersURL(c.group), c.owners, c.ownersEnd)
  }

  /** The group's ID and its memberships, over the whole chains, are as Graph makes them. */
  ghost predicate ProperChains(c: Chains) {
    ':' !in c.group && ProperMembers(MembersOf(c.members)) && ProperMembers(MembersOf(c.owners))
  }

  /** The grants that the first `calls` calls from `token` on return, whether or not the run
      is over then. */
  function ReturnedBy(call: Token -> Result<Page>, token: Token, calls: nat): seq<Grant>
    decreases calls
  {
    if calls == 0 then []
    else
      match call(token)
      case Err(_) => []
      case Ok(page) => page.grants + if page.next.NoToken? then [] else ReturnedBy(call, page.next, calls - 1)
  }

  function Returned(graph: Graph, group: string, token: Token, calls: nat): seq<Grant> {
    ReturnedBy(t => Call(graph, group, t), token, calls)
  }

  /** What a call makes of the state on top of its stack. */
  ghost predicate Obeys(call: Token -> Result<Page>, graph: Graph, group: string) {
    forall below, top :: Obeyed(call, graph, group, below, top)
  }

  ghost predicate Obeyed(call: Token -> Result<Page>, graph: Graph, group: string, below: seq<PageState>, top: PageState) {
    match graph.query(top.token)
    case Answer(page) =>
      call(Saved(below, top)) == Ok(Page(MemberGrants(group, top.resourceTypeID, page.members), Under(below, top, Followed(page))))
    case _ => call(Saved(below, top)).Err?
  }

  lemma CallsObey(graph: Graph, group: string)
    ensures Obeys(t => Call(graph, group, t), graph, group)
  {
    var call := t => Call(graph, group, t);
    forall below, top ensures Obeyed(call, graph, group, below, top) {
      match graph.query(top.token) {
        case Answer(page) => CallAnswered(graph, group, below, top, page);
        case Broken => assert Opened(graph, group, Saved(below, top)) == below + [top];
        case Missing => QueryMeaning(graph.http(top.token));
      }
    }
  }

  /** The pages of the cut chain that `calls` calls get to, and the calls left after it. */
  function Took(chain: seq<Visit>, calls: nat): seq<Visit> {
    if calls <= |Cut(chain)| then Cut(chain)[..calls] else Cut(chain)
  }

  function Left(chain: seq<Visit>, calls: nat): nat {
    if calls <= |Cut(chain)| then 0 else calls - |Cut(chain)|
  }

  lemma TookStep(chain: seq<Visit>, end: End, calls: nat)
    requires chain != [] && !Short(chain[0]) && calls > 0
    ensures Took(chain, calls) == [chain[0]] + Took(chain[1..], calls - 1)
    ensures Left(chain, calls) == Left(chain[1..], calls - 1)
  {
    CutStep(chain, end);
  }

  lemma TookLast(graph: Graph, url: string, chain: seq<Visit>, end: End, calls: nat)
    requires IsChain(graph, url, chain, end) && chain != [] && Followed(chain[0].page) == "" && calls > 0
    ensures CutEnd(chain, end) == Finished && Left(chain, calls) == calls - 1
    ensures MembersOf(Took(chain, calls)) == chain[0].page.members
  {
    EndOfChain(graph, url, chain, end);
    assert Took(chain, calls) == [chain[0]] + [];
    VisitThen(chain[0], []);
    assert chain[0].page.members + [] == chain[0].page.members;
  }

  /** What any number of calls on a chain return, with `below` what the calls after it do. */
  function ChainReturned(group: string, relation: string, chain: seq<Visit>, end: End, calls: nat, below: seq<Grant>): seq<Grant> {
    MemberGrants(group, relation, MembersOf(Took(chain, calls))) + if CutEnd(chain, end) == Finished then below else []
  }

  lemma ChainReturnedStep(group: string, relation: string, chain: seq<Visit>, end: End, calls: nat, below: seq<Grant>)
    requires chain != [] && !Short(chain[0]) && calls > 0
    ensures ChainReturned(group, relation, chain, end, calls, below) ==
            MemberGrants(group, relation, chain[0].page.members)
            + ChainReturned(group, relation, chain[1..], end, calls - 1, below)
  {
    TookStep(chain, end, calls);
    CutStep(chain, end);
    var rest := Took(chain[1..], calls - 1);
    VisitThen(chain[0], rest);
    MemberGrantsConcat(group, relation, chain[0].page.members, MembersOf(rest));
    Associative(MemberGrants(group, relation, chain[0].page.members), MemberGrants(group, relation, MembersOf(rest)),
                if CutEnd(chain, end) == Finished then below else []);
  }

  /** What the calls left after a chain return from the stack below it. */
  function FromBelow(call: Token -> Result<Page>, below: seq<PageState>, calls: nat): seq<Grant> {
    if below == [] then [] else ReturnedBy(call, TokenOf(below), calls)
  }

  /** What calls on a chain on top of a stack return: the pages they get to, then what the
      calls left return from below, if the chain ends well. */
  ghost predicate ReturnsChain(call: Token -> Result<Page>, group: string, below: seq<PageState>, top: PageState,
                               chain: seq<Visit>, end: End, calls: nat) {
    ReturnedBy(call, Saved(below, top), calls) ==
    ChainReturned(group, top.resourceTypeID, chain, end, calls, FromBelow(call, below, Left(chain, calls)))
  }

  lemma ReturnedNone(call: Token -> Result<Page>, graph: Graph, group: string, below: seq<PageState>, top: PageState,
                     chain: seq<Visit>, end: End, calls: nat)
    requires Obeyed(call, graph, group, below, top)
    requires IsChain(graph, top.token, chain, end) && (calls == 0 || chain == [])
    ensures ReturnsChain(call, group, below, top, chain, end, calls)
  {
    assert Took(chain, calls) == [];
    assert MemberGrants(group, top.resourceTypeID, []) == [];
  }

  lemma ReturnedLast(call: Token -> Result<Page>, graph: Graph, group: string, below: seq<PageState>, top: PageState,
                     chain: seq<Visit>, end: End, calls: nat)
    requires Obeyed(call, graph, group, below, top)
    requires IsChain(graph, top.token, chain, end) && chain != [] && Followed(chain[0].page) == "" && calls > 0
    ensures ReturnsChain(call, group, below, top, chain, end, calls)
  {
    TookLast(graph, top.token, chain, end, calls);
    assert Under(below, top, "") == TokenOf(below) && (TokenOf(below) == NoToken <==> below == []);
  }

  lemma ChainLink(graph: Graph, url: string, chain: seq<Visit>, end: End)
    requires IsChain(graph, url, chain, end) && chain != [] && Followed(chain[0].page) != ""
    ensures graph.query(url) == Answer(chain[0].page) && !Short(chain[0])
    ensures IsChain(graph, Followed(chain[0].page), chain[1..], end)
  {
  }

  lemma ReturnedMore(call: Token -> Result<Page>, graph: Graph, group: string, below: seq<PageState>, top: PageState,
                     chain: seq<Visit>, end: End, calls: nat)
    requires Obeyed(call, graph, group, below, top)
    requires IsChain(graph, top.token, chain, end) && chain != [] && Followed(chain[0].page) != "" && calls > 0
    requires ReturnsChain(call, group, below, top.(token := Followed(chain[0].page)), chain[1..], end, calls - 1)
    ensures ReturnsChain(call, group, below, top, chain, end, calls)
  {
    ChainLink(graph, top.token, chain, end);
    TookStep(chain, end, calls);
    ChainReturnedStep(group, top.resourceTypeID, chain, end, calls, FromBelow(call, below, Left(chain, calls)));
  }

  lemma {:induction false} ReturnedChain(call: Token -> Result<Page>, graph: Graph, group: string, below: seq<PageState>,
                                         top: PageState, chain: seq<Visit>, end: End, calls: nat)
    requires Obeys(call, graph, group) && IsChain(graph, top.token, chain, end)
    ensures ReturnsChain(call, group, below, top, chain, end, calls)
    decreases |chain|
  {
    assert Obeyed(call, graph, group, below, top);
    if calls == 0 || chain == [] {
      ReturnedNone(call, graph, group, below, top, chain, end, calls);
    } else if Followed(chain[0].page) == "" {
      ReturnedLast(call, graph, group, below, top, chain, end, calls);
    } else {
      ChainLink(graph, top.token, chain, end);
      ReturnedChain(call, graph, group, below, top.(token := Followed(chain[0].page)), chain[1..], end, calls - 1);
      ReturnedMore(call, graph, group, below, top, chain, end, calls);
    }
  }

  /** What the first calls for each group return; `stops` says how many are made. */
  function AllReturned(graph: Graph, chains: seq<Chains>, stops: string -> nat): seq<Grant> {
    if chains == [] then []
    else Returned(graph, chains[0].group, NoToken, stops(chains[0].group)) + AllReturned(graph, chains[1..], stops)
  }

  /** The memberships that the first `calls` calls get to. */
  function RosterOf(c: Chains, calls: nat): Roster {
    Roster(c.group, MembersOf(Took(c.members, calls)),
           if CutEnd(c.members, c.membersEnd) == Finished then MembersOf(Took(c.owners, Left(c.members, calls))) else [])
  }

  /** The first call opens the members listing on top of the owners listing. */
  lemma FirstCall(graph: Graph, group: string, calls: nat)
    ensures var owners, members := PageState(graph.ownersURL(group), OWNERS, ""), PageState(graph.membersURL(group), MEMBERS, "");
            Returned(graph, group, NoToken, calls) == Returned(graph, group, Saved([owners], members), calls)
  {
    var owners, members := PageState(graph.ownersURL(group), OWNERS, ""), PageState(graph.membersURL(group), MEMBERS, "");
    assert Opened(graph, group, NoToken) == Opened(graph, group, Saved([owners], members));
    assert Call(graph, group, NoToken) == Call(graph, group, Saved([owners], members));
  }

  /** However the chains end and wherever the calls stop, what they have returned is the
      roster of the pages they got to: of the cut members chain first, then of the cut
      owners chain. */
  lemma RunIsRoster(graph: Graph, c: Chains, calls: nat)
    requires ServedBy(graph, c)
    ensures Returned(graph, c.group, NoToken, calls) == RosterGrants(RosterOf(c, calls))
  {
    var owners, members := PageState(graph.ownersURL(c.group), OWNERS, ""), PageState(graph.membersURL(c.group), MEMBERS, "");
    var call := t => Call(graph, c.group, t);
    CallsObey(graph, c.group);
    FirstCall(graph, c.group, calls);
    ReturnedChain(call, graph, c.group, [owners], members, c.members, c.membersEnd, calls);
    ReturnedChain(call, graph, c.group, [], owners, c.owners, c.ownersEnd, Left(c.members, calls));
    RosterInTwo(call, c, owners, members, calls);
  }

  lemma RosterInTwo(call: Token -> Result<Page>, c: Chains, owners: PageState, members: PageState, calls: nat)
    requires owners.resourceTypeID == OWNERS && members.resourceTypeID == MEMBERS
    requires ReturnsChain(call, c.group, [owners], members, c.members, c.membersEnd, calls)
    requires ReturnsChain(call, c.group, [], owners, c.owners, c.ownersEnd, Left(c.members, calls))
    ensures ReturnedBy(call, Saved([owners], members), calls) == RosterGrants(RosterOf(c, calls))
  {
    assert TokenOf([owners]) == Saved([], owners);
    assert MemberGrants(c.group, OWNERS, []) == [];
    var o := MemberGrants(c.group, OWNERS, MembersOf(Took(c.owners, Left(c.members, calls))));
    assert o + [] == o;
  }

  lemma FinishedRoster(c: Chains, calls: nat)
    requires calls >= ExpectedCalls(c.members, c.membersEnd, c.owners, c.ownersEnd)
    ensures RosterGrants(RosterOf(c, calls)) == Expected(c.group, c.members, c.membersEnd, c.owners, c.ownersEnd).grants
  {
    assert Took(c.members, calls) == Cut(c.members);
    var m, o := MemberGrants(c.group, MEMBERS, MembersOf(Cut(c.members))), MemberGrants(c.group, OWNERS, MembersOf(Cut(c.owners)));
    assert m + [] == m && o + [] == o;
    if CutEnd(c.members, c.membersEnd) == Finished {
      assert Took(c.owners, Left(c.members, calls)) == Cut(c.owners);
    } else {
      assert MemberGrants(c.group, OWNERS, []) == [];
    }
  }

  /** So the calls have returned, for each member on the pages they got to and in turn, what
      that member adds, as a member first, then as an owner. */
  lemma ReturnedByKind(graph: Graph, c: Chains, calls: nat)
    requires ServedBy(graph, c)
    ensures exists m, o :: Returned(graph, c.group, NoToken, calls) == m + o
                           && Converts(RosterOf(c, calls).members, c.group, "members", m)
                           && Converts(RosterOf(c, calls).owners, c.group, "owners", o)
  {
    var r := RosterOf(c, calls);
    RunIsRoster(graph, c, calls);
    MemberGrantsByKind(c.group, "members", r.members);
    MemberGrantsByKind(c.group, "owners", r.owners);
    assert RosterGrants(r) == MemberGrants(c.group, "members", r.members) + MemberGrants(c.group, "owners", r.owners);
  }

  /** A run that is over has returned just the grants of the run. */
  lemma RunReturns(graph: Graph, c: Chains, calls: nat)
    requires ServedBy(graph, c) && Run(graph, c.group, NoToken, calls).Some?
    ensures Returned(graph, c.group, NoToken, calls) == Run(graph, c.group, NoToken, calls).value.grants
  {
    FullRun(graph, c.group, c.members, c.membersEnd, c.owners, c.ownersEnd);
    RunIsRoster(graph, c, calls);
    FinishedRoster(c, calls);
  }

  lemma {:induction false} TookIsPrefix(chain: seq<Visit>, calls: nat)
    ensures MembersOf(Took(chain, calls)) <= MembersOf(chain)
  {
    if chain != [] && calls > 0 {
      if Short(chain[0]) {
        VisitThen(chain[0], []);
        assert Took(chain, calls) == [chain[0]] + [] && chain[0].page.members + [] == chain[0].page.members;
      } else {
        TookStep(chain, Finished, calls);
        TookIsPrefix(chain[1..], calls - 1);
        VisitThen(chain[0], Took(chain[1..], calls - 1));
      }
    }
  }

  lemma ProperPrefix(a: seq<Membership>, b: seq<Membership>)
    requires ProperMembers(b) && a <= b
    ensures ProperMembers(a)
  {
    forall m | m in a ensures ':' !in m.id {
      assert m in b;
    }
  }

  lemma ProperRun(c: Chains, calls: nat)
    requires ProperChains(c)
    ensures ProperRoster(RosterOf(c, calls))
  {
    TookIsPrefix(c.members, calls);
    TookIsPrefix(c.owners, Left(c.members, calls));
    ProperPrefix(RosterOf(c, calls).members, MembersOf(c.members));
    ProperPrefix(MembersOf(Took(c.owners, Left(c.members, calls))), MembersOf(c.owners));
  }

  lemma {:induction false} RunsAreRosters(graph: Graph, chains: seq<Chains>, stops: string -> nat) returns (rosters: seq<Roster>)
    requires forall i | 0 <= i < |chains| :: ServedBy(graph, chains[i]) && ProperChains(chains[i])
    ensures |rosters| == |chains|
    ensures forall i | 0 <= i < |chains| :: rosters[i].group == chains[i].group && ProperRoster(rosters[i])
    ensures AllReturned(graph, chains, stops) == AllGrants(rosters)
  {
    if chains == [] {
      rosters := [];
    } else {
      var calls := stops(chains[0].group);
      RunIsRoster(graph, chains[0], calls);
      ProperRun(chains[0], calls);
      assert forall i | 0 <= i < |chains[1..]| :: chains[1..][i] == chains[i + 1];
      var rest := RunsAreRosters(graph, chains[1..], stops);
      rosters := [RosterOf(chains[0], calls)] + rest;
      assert rosters[1..] == rest;
    }
  }

  /** All grants that a sync returns, over any list of distinct groups, both relations and
      all principals, have pairwise distinct IDs: however the chains are paged, cut or broken
      off, and after however many calls for each group the sync stops. */
  lemma {:induction false} RunIdsDistinct(graph: Graph, chains: seq<Chains>, stops: string -> nat)
    requires forall i | 0 <= i < |chains| :: ServedBy(graph, chains[i]) && ProperChains(chains[i])
    requires forall i, j | 0 <= i < j < |chains| :: chains[i].group != chains[j].group
    ensures DistinctIds(AllReturned(graph, chains, stops))
  {
    var rosters := RunsAreRosters(graph, chains, stops);
    SyncIdsDistinct(rosters);
  }

  /** Every grant of a group's roster names the entitlement the group emits for the relation,
      is of the group, and is for a listed member of that relation. */
  lemma RosterGrantForm(r: Roster, g: Grant)
    requires g in RosterGrants(r)
    ensures exists relation, m ::
              && ((relation == MEMBERS && m in r.members) || (relation == OWNERS && m in r.owners))
              && g.entitlement == Entitlement(NewEntitlementID(ResourceId(GROUP, r.group), relation), ResourceId(GROUP, r.group))
              && MemberType(m) == Some(g.principal.resourceType) && g.principal.resource == m.id
  {
    var relation, m := MadeForRoster(r, g);
    assert NewEntitlementID(ResourceId(GROUP, r.group), relation) == GroupEntitlementID(r.group, relation);
  }

  /** A nested group's grant is expandable to exactly the entitlement the inner group's own
      members grants carry, and its owners grants do not; no other grant is expandable. */
  lemma NestedGroupExpands(outer: Roster, g: Grant, inner: Roster, h: Grant)
    requires g in RosterGrants(outer)
    requires inner.group == g.principal.resource && h in RosterGrants(inner)
    ensures g.principal.resourceType != GROUP ==> g.expandable == []
    ensures g.principal.resourceType == GROUP ==>
              && g.expandable == [NewEntitlementID(g.principal, MEMBERS)]
              && (h in MemberGrants(inner.group, MEMBERS, inner.members) ==> [h.entitlement.id] == g.expandable)
              && (h in MemberGrants(inner.group, OWNERS, inner.owners) ==> [h.entitlement.id] != g.expandable)
  {
    var relation, m := MadeForRoster(outer, g);
    assert NewEntitlementID(ResourceId(GROUP, m.id), MEMBERS) == GroupEntitlementID(m.id, MEMBERS);
    if h in MemberGrants(inner.group, MEMBERS, inner.members) {
      var m' := MadeForMember(inner.group, MEMBERS, inner.members, h);
    }
    if h in MemberGrants(inner.group, OWNERS, inner.owners) {
      var m' := MadeForMember(inner.group, OWNERS, inner.owners, h);
      assert |GroupEntitlementID(inner.group, OWNERS)| != |GroupEntitlementID(inner.group, MEMBERS)|;
    }
  }
}
