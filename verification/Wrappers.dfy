/** Result types shared by the model: a value that may be missing (a Go pointer
    that may be nil) and a value that may be replaced by an error. */
module Wrappers {
  datatype Option<+T> = None | Some(value: T)

  /** Every error the modelled operations return, by the cause the source reports. */
  datatype Error =
    | RemoteFailure            // a page, query or call to Azure or Graph failed
    | UsersOnly                // the principal is not a user
    | InvalidRoleID            // the resource ID has the wrong number of parts
    | AssignmentNotFound       // no role assignment matches
    | NotDeleted               // the delete call answered without an ID
    | CorruptToken             // the page token does not decode
    | UnknownMembership        // an owner that is neither a user nor a service principal
    | UnknownPageKind          // a page state of neither relation
    | UnknownEntitlementType   // an entitlement ID of neither type
    | InvalidEntitlementID     // an entitlement ID with fewer than three parts
    | MissingAppRoleID         // an assignment entitlement ID without its fourth part

  datatype Result<+T> = Ok(value: T) | Err(error: Error)
}
