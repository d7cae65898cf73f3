/** Entitlement IDs of enterprise applications: how they are marshalled, read back, and
    formatted a second time by `Grants`. */
module EntitlementIds {
  import opened Wrappers
  import opened Text
  import opened Resources

  /** `MarshalString`, by the type "appRole" or "owners". */
  function Marshal(typ: string, resource: string, appRoleId: string): Result<string> {
    if typ == "appRole" then Ok(Join([ENTERPRISE_APPLICATION, resource, ASSIGNMENT, appRoleId], ':'))
    else if typ == OWNERS then Ok(Join([ENTERPRISE_APPLICATION, resource, OWNERS], ':'))
    else Err(UnknownEntitlementType)
  }

  class EntitlementId {
    var typ: string
    var resource: string
    var appRoleId: string

    constructor (typ: string, resource: string, appRoleId: string)
      ensures this.typ == typ && this.resource == resource && this.appRoleId == appRoleId
    {
      this.typ, this.resource, this.appRoleId := typ, resource, appRoleId;
    }

    method MarshalString() returns (r: Result<string>)
      ensures r == Marshal(typ, resource, appRoleId)
    {
      if typ == "appRole" {
        return Ok(Join([ENTERPRISE_APPLICATION, resource, ASSIGNMENT, appRoleId], ':'));
      }
      if typ == OWNERS {
        return Ok(Join([ENTERPRISE_APPLICATION, resource, OWNERS], ':'));
      }
      return Err(UnknownEntitlementType);
    }

    /** The receiver keeps its fields when the input is too short, and its app role unless
        the input names an assignment; an assignment without its fourth part still sets the
        type and the resource. */
    method UnmarshalString(input: string) returns (err: Option<Error>)
      modifies this
      ensures (Fields(typ, resource, appRoleId), err) == Unmarshal(old(Fields(typ, resource, appRoleId)), input)
    {
      var parts := Split(input, ':');
      if |parts| < 3 {
        return Some(InvalidEntitlementID);
      }
      typ := parts[2];
      resource := parts[1];
      if typ == ASSIGNMENT {
        if |parts| < 4 {
          return Some(MissingAppRoleID);
        }
        appRoleId := parts[3];
      }
      return None;
    }
  }

  datatype Fields = Fields(typ: string, resource: string, appRoleId: string)

  function Unmarshal(f: Fields, input: string): (Fields, Option<Error>) {
    var parts := Split(input, ':');
    if |parts| < 3 then (f, Some(InvalidEntitlementID))
    else if parts[2] != ASSIGNMENT then (Fields(parts[2], parts[1], f.appRoleId), None)
    else if |parts| < 4 then (Fields(parts[2], parts[1], f.appRoleId), Some(MissingAppRoleID))
    else (Fields(parts[2], parts[1], parts[3]), None)
  }

  lemma FreeConstants()
    ensures ':' !in ENTERPRISE_APPLICATION && ':' !in ASSIGNMENT && ':' !in OWNERS
  {
  }

  /** The parts of a marshalled ID. */
  function IdParts(typ: string, resource: string, appRoleId: string): seq<string> {
    if typ == "appRole" then [ENTERPRISE_APPLICATION, resource, ASSIGNMENT, appRoleId]
    else [ENTERPRISE_APPLICATION, resource, OWNERS]
  }

  lemma MarshalledParts(typ: string, resource: string, appRoleId: string)
    requires typ == "appRole" || typ == OWNERS
    requires ':' !in resource && ':' !in appRoleId
    ensures Split(Marshal(typ, resource, appRoleId).value, ':') == IdParts(typ, resource, appRoleId)
  {
    FreeConstants();
    SplitJoin(IdParts(typ, resource, appRoleId), ':');
  }

  /** Unmarshalling into a fresh value undoes marshalling up to the renaming of the type
      "appRole" to "assignment"; an owners ID comes back without an app role. */
  lemma MarshalRoundTrip(typ: string, resource: string, appRoleId: string)
    requires typ == "appRole" || typ == OWNERS
    requires ':' !in resource && ':' !in appRoleId
    ensures Unmarshal(Fields("", "", ""), Marshal(typ, resource, appRoleId).value) ==
            (if typ == "appRole" then Fields(ASSIGNMENT, resource, appRoleId) else Fields(OWNERS, resource, ""), None)
  {
    MarshalledParts(typ, resource, appRoleId);
  }

  /** Reading an ID with the given colon-free parts. Fewer than three leave the fields alone;
      else the third is the type and the second the resource, and an assignment takes the
      fourth as its app role and fails, with type and resource set, when there is none. */
  lemma UnmarshalExactly(f: Fields, parts: seq<string>)
    requires parts != [] && forall i | 0 <= i < |parts| :: ':' !in parts[i]
    ensures var (after, error) := Unmarshal(f, Join(parts, ':'));
            if |parts| < 3 then after == f && error == Some(InvalidEntitlementID)
            else
              && after.typ == parts[2] && after.resource == parts[1]
              && (parts[2] != "assignment" ==> after.appRoleId == f.appRoleId && error == None)
              && (parts[2] == "assignment" && |parts| == 3 ==> after.appRoleId == f.appRoleId && error == Some(MissingAppRoleID))
              && (parts[2] == "assignment" && |parts| > 3 ==> after.appRoleId == parts[3] && error == None)
  {
    SplitJoin(parts, ':');
  }

  /** Only the two types can be marshalled. */
  lemma MarshalFails(typ: string, resource: string, appRoleId: string)
    ensures Marshal(typ, resource, appRoleId).Err? <==> typ != "appRole" && typ != "owners"
    ensures Marshal(typ, resource, appRoleId).Err? ==> Marshal(typ, resource, appRoleId).error == UnknownEntitlementType
  {
  }

  /** Marshalling tells types, resources and, for app roles, app role IDs apart. */
  lemma MarshalInjective(typ: string, resource: string, appRoleId: string, typ': string, resource': string, appRoleId': string)
    requires (typ == "appRole" || typ == OWNERS) && (typ' == "appRole" || typ' == OWNERS)
    requires ':' !in resource && ':' !in appRoleId && ':' !in resource' && ':' !in appRoleId'
    requires Marshal(typ, resource, appRoleId) == Marshal(typ', resource', appRoleId')
    ensures typ == typ' && resource == resource' && (typ == "appRole" ==> appRoleId == appRoleId')
  {
    MarshalRoundTrip(typ, resource, appRoleId);
    MarshalRoundTrip(typ', resource', appRoleId');
  }

  // ---- the IDs Grants formats ----

  function AssignmentEntitlementID(resource: string, appRoleId: string): string {
    "enterprise_application:" + resource + ":assignment:" + appRoleId
  }

  function OwnersEntitlementID(resource: string): string {
    "enterprise_application:" + resource + ":owners"
  }

  lemma ThreeParts(a: string, b: string, c: string)
    ensures Join([a, b, c], ':') == a + ":" + b + ":" + c
  {
    JoinStep(a, [b, c], ':');
    JoinStep(b, [c], ':');
    assert [a] + [b, c] == [a, b, c] && [b] + [c] == [b, c];
  }

  lemma FourParts(a: string, b: string, c: string, d: string)
    ensures Join([a, b, c, d], ':') == a + ":" + b + ":" + c + ":" + d
  {
    JoinStep(a, [b, c, d], ':');
    ThreeParts(b, c, d);
    assert [a] + [b, c, d] == [a, b, c, d];
  }

  lemma Glue(a: string, b: string, c: string, d: string)
    ensures a + ":" + b + ":" + c + ":" + d == (a + ":") + b + ((":" + c) + ":") + d
    ensures a + ":" + b + ":" + c == (a + ":") + b + (":" + c)
  {
  }

  /** The entitlement IDs `Grants` formats are the ones `Entitlements` marshals, on every input. */
  lemma GrantsIdIsMarshalled(resource: string, appRoleId: string)
    ensures Marshal("appRole", resource, appRoleId) == Ok(AssignmentEntitlementID(resource, appRoleId))
    ensures Marshal(OWNERS, resource, appRoleId) == Ok(OwnersEntitlementID(resource))
  {
    FourParts(ENTERPRISE_APPLICATION, resource, ASSIGNMENT, appRoleId);
    ThreeParts(ENTERPRISE_APPLICATION, resource, OWNERS);
    Glue(ENTERPRISE_APPLICATION, resource, ASSIGNMENT, appRoleId);
    Glue(ENTERPRISE_APPLICATION, resource, OWNERS, appRoleId);
    assert ENTERPRISE_APPLICATION + ":" == "enterprise_application:";
    assert (":" + ASSIGNMENT) + ":" == ":assignment:" && ":" + OWNERS == ":owners";
  }
}
