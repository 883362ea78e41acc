/** Values the HBase authorization session works with: nullable strings, the
    user, the access request it builds, the result the policy engine returns,
    the audit events and the exceptions the session raises. */
module AuthzTypes {

  datatype Option<+T> = None | Some(value: T)

  /** A Java `String` reference: `None` stands for `null`. */
  type Str = Option<string>

  /** `isProvided`: a string counts as provided when it is non-null and non-empty. */
  predicate IsProvided(s: Str): (provided: bool)
    ensures provided <==> s != None && s != Some("")
  {
    s.Some? && s.value != ""
  }

  /** How Java's string concatenation renders a possibly-null string. */
  function JavaText(s: Str): string {
    if s.None? then "null" else s.value
  }

  /** The HBase `User`; only its name (`getName()`) is observed by the session. */
  datatype User = User(name: string)

  /** The three keys the session puts into the request's resource. */
  datatype Resource = Resource(table: Str, columnFamily: Str, column: Str)

  /** The prefix rule of the HBase resource path: a column family needs a
      table and a column needs a column family. */
  predicate PathWellFormed(res: Resource) {
    (IsProvided(res.columnFamily) ==> IsProvided(res.table)) &&
    (IsProvided(res.column) ==> IsProvided(res.columnFamily))
  }

  /** The request handed to the policy engine. */
  datatype AccessRequest = AccessRequest(
    resource: Resource,
    accessType: string,
    user: string,
    userGroups: Option<set<string>>,
    action: Str,
    requestData: Str,
    clientIPAddress: Str)

  /** A request the session can have built: a non-empty access and a
      well-formed resource path. */
  predicate RequestWellFormed(req: AccessRequest) {
    req.accessType != "" && PathWellFormed(req.resource)
  }

  /** The engine's verdict; `reason` may be null. */
  datatype AccessResult = AccessResult(isAllowed: bool, isAudited: bool, reason: Str)

  /** One audit record; the session only moves these around. */
  datatype AuthzAuditEvent = AuthzAuditEvent(eventId: string, user: string, accessType: string, accessResult: bool)

  /** What one call of the policy engine's `isAccessAllowed` yields: the
      result, and the events it captures into the attached audit handler. */
  datatype Evaluation = Evaluation(result: AccessResult, events: seq<AuthzAuditEvent>)

  /** The user utilities the session consults: `getUserAsString` and `getUserGroups`. */
  datatype UserUtils = UserUtils(userAsString: User -> string, userGroups: User -> set<string>)

  /** The group set the session caches for a user: null when the user is null. */
  function GroupsOf(utils: UserUtils, user: Option<User>): Option<set<string>> {
    if user.None? then None else Some(utils.userGroups(user.value))
  }

  /** Why `verifyBuildable` or `authorize` refuses to go on. */
  datatype IllegalState =
    | AccessIsNull          // access null or empty
    | UserIsNull
    | TableMissing          // column family provided without table
    | ColumnFamilyMissing   // column provided without column family
    | RequestNotBuilt       // authorize before buildRequest

  datatype SessionException =
    | IllegalStateException(state: IllegalState)
    | AccessDeniedException(message: string)
    | NullPointerException

  /** The outcome of a Java method that returns a value or throws. */
  datatype Fallible<+T> = Returns(value: T) | Throws(exception: SessionException)
}
