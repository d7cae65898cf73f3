/** How the connector learns what kind of principal an assignment names: `getPrincipalType`
    asks Graph at four endpoints, and `getPrincipalIDResource` turns the kind into a resource. */
module Directory {
  import opened Wrappers
  import opened Resources

  /** A JSON value: text, or anything else. */
  datatype Json = Text(text: string) | Other

  type Fields = map<string, Json>

  /** What Graph answers for a principal at an endpoint. */
  datatype Graph = Graph(get: (string, string) -> Result<Fields>)

  const ENDPOINTS := ["directoryObjects", "users", "groups", "servicePrincipals"]

  const GRAPH_USER := "#microsoft.graph.user"
  const GRAPH_GROUP := "#microsoft.graph.group"
  const GRAPH_SERVICE_PRINCIPAL := "#microsoft.graph.servicePrincipal"

  /** The kind the fields gathered so far settle on, if they do. */
  function Decide(data: Fields): Option<string> {
    if "@odata.type" in data && data["@odata.type"].Text? then
      var odataType := data["@odata.type"].text;
      if odataType != GRAPH_SERVICE_PRINCIPAL then Some(odataType)
      else if "servicePrincipalType" in data && data["servicePrincipalType"].Text? then
        Some(data["servicePrincipalType"].text)
      else None
    else None
  }

  function Answer(graph: Graph, principalID: string, i: nat): Result<Fields>
    requires i < |ENDPOINTS|
  {
    graph.get(ENDPOINTS[i], principalID)
  }

  /** One map receives every response, so fields of earlier answers stay unless overwritten. */
  function Gathered(graph: Graph, principalID: string, n: nat): Fields
    requires n <= |ENDPOINTS|
  {
    if n == 0 then map[]
    else
      var before := Gathered(graph, principalID, n - 1);
      match Answer(graph, principalID, n - 1)
      case Ok(fields) => before + fields
      case Err(_) => before
  }

  /** The first `n` endpoints answer and their gathered fields settle nothing. */
  ghost predicate Undecided(graph: Graph, principalID: string, n: nat)
    requires n <= |ENDPOINTS|
  {
    forall i | 0 <= i < n :: Answer(graph, principalID, i).Ok? && Decide(Gathered(graph, principalID, i + 1)).None?
  }

  /** `getPrincipalType` from endpoint `n` on. */
  function TypeFrom(graph: Graph, principalID: string, n: nat): Result<string>
    requires n <= |ENDPOINTS|
    decreases |ENDPOINTS| - n
  {
    if n == |ENDPOINTS| then Ok("")
    else match Answer(graph, principalID, n)
      case Err(e) => Err(e)
      case Ok(_) =>
        match Decide(Gathered(graph, principalID, n + 1))
        case Some(kind) => Ok(kind)
        case None => TypeFrom(graph, principalID, n + 1)
  }

  function PrincipalType(graph: Graph, principalID: string): Result<string> {
    TypeFrom(graph, principalID, 0)
  }

  /** The answer is settled at the first endpoint that fails or whose gathered fields
      decide; when none does, the kind is the empty text. */
  lemma {:induction false} PrincipalTypeMeaning(graph: Graph, principalID: string, n: nat)
    requires n <= |ENDPOINTS| && Undecided(graph, principalID, n)
    ensures n == |ENDPOINTS| ==> PrincipalType(graph, principalID) == Ok("")
    ensures n < |ENDPOINTS| && Answer(graph, principalID, n).Err? ==>
              PrincipalType(graph, principalID) == Err(Answer(graph, principalID, n).error)
    ensures n < |ENDPOINTS| && Answer(graph, principalID, n).Ok? && Decide(Gathered(graph, principalID, n + 1)).Some? ==>
              PrincipalType(graph, principalID) == Ok(Decide(Gathered(graph, principalID, n + 1)).value)
    ensures TypeFrom(graph, principalID, 0) == TypeFrom(graph, principalID, n)
  {
    if n > 0 {
      PrincipalTypeMeaning(graph, principalID, n - 1);
      assert Answer(graph, principalID, n - 1).Ok? && Decide(Gathered(graph, principalID, n)).None?;
    }
  }

  /** A reference for `getPrincipalType`: what the answers, in turn, settle on, with `fields`
      those gathered before. */
  function Settled(answers: seq<Result<Fields>>, fields: Fields): Result<string> {
    if answers == [] then Ok("")
    else
      match answers[0]
      case Err(e) => Err(e)
      case Ok(more) =>
        var now := fields + more;
        if "@odata.type" !in now || now["@odata.type"].Other? then Settled(answers[1..], now)
        else if now["@odata.type"].text != "#microsoft.graph.servicePrincipal" then Ok(now["@odata.type"].text)
        else if "servicePrincipalType" in now && now["servicePrincipalType"].Text? then Ok(now["servicePrincipalType"].text)
        else Settled(answers[1..], now)
  }

  lemma {:induction false} SettledFrom(graph: Graph, principalID: string, answers: seq<Result<Fields>>, n: nat)
    requires |answers| == |ENDPOINTS| && n <= |ENDPOINTS|
    requires forall i | 0 <= i < |answers| :: answers[i] == Answer(graph, principalID, i)
    ensures TypeFrom(graph, principalID, n) == Settled(answers[n..], Gathered(graph, principalID, n))
    decreases |answers| - n
  {
    if n < |answers| {
      SettledFrom(graph, principalID, answers, n + 1);
      assert answers[n..][0] == Answer(graph, principalID, n) && answers[n..][1..] == answers[n + 1..];
    }
  }

  /** The kind is what the directory objects, the users, the groups and the service
      principals, asked in this order for the principal's ID, settle on. */
  lemma AsksInOrder(graph: Graph, principalID: string)
    ensures PrincipalType(graph, principalID) ==
            Settled([graph.get("directoryObjects", principalID), graph.get("users", principalID),
                     graph.get("groups", principalID), graph.get("servicePrincipals", principalID)], map[])
  {
    var answers := [graph.get("directoryObjects", principalID), graph.get("users", principalID),
                    graph.get("groups", principalID), graph.get("servicePrincipals", principalID)];
    SettledFrom(graph, principalID, answers, 0);
    assert answers[0..] == answers;
  }

  /** The type `directoryObjects` reports settles the kind whatever the other endpoints would
      answer. For a service principal it is the type of service principal; when that is
      missing, the leftover object type lets the next answer supply it without repeating it. */
  lemma DirectoryObjectDecides(graph: Graph, principalID: string, fields: Fields)
    requires Answer(graph, principalID, 0) == Ok(fields)
    requires "@odata.type" in fields && fields["@odata.type"].Text?
    ensures var odataType := fields["@odata.type"].text;
            && (odataType != GRAPH_SERVICE_PRINCIPAL ==> PrincipalType(graph, principalID) == Ok(odataType))
            && (odataType == GRAPH_SERVICE_PRINCIPAL && "servicePrincipalType" in fields && fields["servicePrincipalType"].Text? ==>
                  PrincipalType(graph, principalID) == Ok(fields["servicePrincipalType"].text))
            && (odataType == GRAPH_SERVICE_PRINCIPAL && "servicePrincipalType" !in fields ==>
                  match Answer(graph, principalID, 1)
                  case Err(e) => PrincipalType(graph, principalID) == Err(e)
                  case Ok(more) =>
                    "@odata.type" !in more && "servicePrincipalType" in more && more["servicePrincipalType"].Text? ==>
                      PrincipalType(graph, principalID) == Ok(more["servicePrincipalType"].text))
  {
    assert Gathered(graph, principalID, 1) == map[] + fields == fields;
    assert PrincipalType(graph, principalID) == TypeFrom(graph, principalID, 0);
    if Decide(fields).None? {
      assert TypeFrom(graph, principalID, 0) == TypeFrom(graph, principalID, 1);
      if Answer(graph, principalID, 1).Ok? {
        assert Gathered(graph, principalID, 2) == fields + Answer(graph, principalID, 1).value;
      }
    }
  }

  method GetPrincipalType(graph: Graph, principalID: string) returns (kind: Result<string>)
    ensures kind == PrincipalType(graph, principalID)
  {
    var principalData: Fields := map[];
    var index := 0;
    while index < |ENDPOINTS|
      invariant 0 <= index <= |ENDPOINTS|
      invariant principalData == Gathered(graph, principalID, index)
      invariant PrincipalType(graph, principalID) == TypeFrom(graph, principalID, index)
    {
      var resp := graph.get(ENDPOINTS[index], principalID);
      if resp.Err? {
        return Err(resp.error);
      }
      principalData := principalData + resp.value;
      if "@odata.type" in principalData && principalData["@odata.type"].Text? {
        var principalType := principalData["@odata.type"].text;
        if principalType == GRAPH_SERVICE_PRINCIPAL {
          if "servicePrincipalType" in principalData && principalData["servicePrincipalType"].Text? {
            return Ok(principalData["servicePrincipalType"].text);
          }
        } else {
          return Ok(principalType);
        }
      }
      index := index + 1;
    }
    return Ok("");
  }

  /** `getPrincipalIDResource`: None is the nil it returns for every other kind. A group
      is reported as a resource group, as the source does. */
  function PrincipalResource(kind: string, principalID: string): Option<ResourceId> {
    if kind == GRAPH_USER then Some(ResourceId(USER, principalID))
    else if kind == GRAPH_GROUP then Some(ResourceId(RESOURCE_GROUP, principalID))
    else if kind == "Application" then Some(ResourceId(ENTERPRISE_APPLICATION, principalID))
    else if kind == "ManagedIdentity" then Some(ResourceId(MANAGED_IDENTITY, principalID))
    else None
  }
}
