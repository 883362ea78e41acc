/** Callers driving a session through its protocol; what each one ensures
    follows from the session's contracts alone. */
module SessionScenarios {
  import opened AuthzTypes
  import opened AuditHandling
  import opened Session

  /** A new session whose request context, access and user are set. */
  method NewSession(engine: AccessRequest -> Evaluation, userUtils: UserUtils,
                    operation: Str, otherInformation: Str, remoteAddress: Str, access: Str, user: Option<User>)
    returns (session: AuthorizationSession)
    ensures fresh(session) && session.Valid()
    ensures session.authorizer == engine && session.userUtils == userUtils
    ensures session.operation == operation && session.otherInformation == otherInformation
    ensures session.remoteAddress == remoteAddress && session.access == access && session.user == user
    ensures session.table.None? && session.columnFamily.None? && session.column.None?
    ensures session.auditHandler == null && session.request.None? && session.result.None?
  {
    session := new AuthorizationSession(engine, userUtils);
    session.SetOperation(operation);
    session.SetOtherInformation(otherInformation);
    session.SetRemoteAddress(remoteAddress);
    session.SetAccess(access);
    session.SetUser(user);
  }

  /** Sets the three resource path components of a session. */
  method SetResourcePath(session: AuthorizationSession, table: Str, columnFamily: Str, column: Str)
    requires session.Valid()
    modifies session`table, session`columnFamily, session`column
    ensures session.Valid()
    ensures session.table == table && session.columnFamily == columnFamily && session.column == column
  {
    session.SetTable(table);
    session.SetColumnFamily(columnFamily);
    session.SetColumn(column);
  }

  /** A new session with every field set through its setters, as a caller
      configures one before `buildRequest`. */
  method Configure(engine: AccessRequest -> Evaluation, userUtils: UserUtils,
                   operation: Str, otherInformation: Str, remoteAddress: Str,
                   access: Str, user: Option<User>, table: Str, columnFamily: Str, column: Str)
    returns (session: AuthorizationSession)
    ensures fresh(session) && session.Valid()
    ensures session.authorizer == engine && session.userUtils == userUtils
    ensures session.operation == operation && session.otherInformation == otherInformation
    ensures session.remoteAddress == remoteAddress && session.access == access && session.user == user
    ensures session.table == table && session.columnFamily == columnFamily && session.column == column
    ensures session.auditHandler == null && session.request.None? && session.result.None?
  {
    session := NewSession(engine, userUtils, operation, otherInformation, remoteAddress, access, user);
    SetResourcePath(session, table, columnFamily, column);
  }

  /** Attaches a fresh audit handler and builds the request of a buildable session. */
  method BuildWithFreshHandler(session: AuthorizationSession) returns (request: AccessRequest, handler: AuditHandler)
    requires session.Valid()
    requires CheckBuildable(session.access, session.user, session.table, session.columnFamily, session.column).None?
    modifies session`request, session`result, session`auditHandler
    ensures fresh(handler) && handler.captured == [] && handler.batches == []
    ensures session.Valid() && session.auditHandler == handler
    ensures session.request == Some(request) && session.result.None?
    ensures request == AccessRequest(Resource(session.table, session.columnFamily, session.column), session.access.value,
                                     session.userUtils.userAsString(session.user.value), session.groups,
                                     session.operation, session.otherInformation, session.remoteAddress)
  {
    handler := new AuditHandler();
    session.SetAuditHandler(handler);
    var failure := session.BuildRequest();
    request := session.request.value;
  }

  /** For any configured session whose fields pass `verifyBuildable`, one
      evaluation with a fresh audit handler: the request carries the
      configured fields, the audit log receives the outcome's selection of the
      engine's events, and the caller gets a throw exactly on a denial. */
  method EvaluateWithFreshHandler(session: AuthorizationSession)
    returns (request: AccessRequest, thrown: Option<SessionException>, written: seq<AuthzAuditEvent>)
    requires session.Valid()
    requires CheckBuildable(session.access, session.user, session.table, session.columnFamily, session.column).None?
    modifies session`request, session`result, session`auditHandler
    ensures request == AccessRequest(Resource(session.table, session.columnFamily, session.column), session.access.value,
                                     session.userUtils.userAsString(session.user.value), session.groups,
                                     session.operation, session.otherInformation, session.remoteAddress)
    ensures written == Events(SelectForOutcome(session.authorizer(request).result.isAllowed, session.authorizer(request).events))
    ensures thrown.None? <==> session.authorizer(request).result.isAllowed
    ensures !session.authorizer(request).result.isAllowed ==>
              thrown == Some(AccessDeniedException(DenialMessage(session.user.value.name, session.access)))
  {
    var handler;
    request, handler := BuildWithFreshHandler(session);
    var evaluation := session.authorizer(request);
    var failure := session.Authorize();
    assert handler.captured == evaluation.events && handler.batches == [];
    assert session.IsAuthorized() == evaluation.result.isAllowed;
    thrown := session.PublishResults();
    written := handler.Written();
  }

  /** The log of one evaluation with a fresh handler is the log of a run of one round. */
  lemma OneRoundLog(authorized: bool, captured: seq<AuthzAuditEvent>)
    ensures Logged(Batches([Round(authorized, captured)])) == Events(SelectForOutcome(authorized, captured))
  {
  }

  /** alice reads `orders`/`pii` and the engine denies after capturing two
      events: only the later one is audited, and the caller gets an
      `AccessDeniedException` naming alice and the action. */
  method DeniedReadAuditsLastEvent(userUtils: UserUtils, first: AuthzAuditEvent, last: AuthzAuditEvent)
    returns (thrown: Option<SessionException>, written: seq<AuthzAuditEvent>)
    ensures thrown.Some? && thrown.value.AccessDeniedException?
    ensures Mentions(thrown.value.message, "alice") && Mentions(thrown.value.message, "read")
    ensures written == [last]
  {
    var engine := (req: AccessRequest) => Evaluation(AccessResult(false, true, Some("no matching policy")), [first, last]);
    var session := Configure(engine, userUtils, None, None, None,
                             Some("read"), Some(User("alice")), Some("orders"), Some("pii"), None);
    var request;
    request, thrown, written := EvaluateWithFreshHandler(session);
    assert JavaText(Some("read")) == "read";
  }

  /** alice reads table `orders` alone and the engine allows after capturing
      two events: both are audited in order and nothing is thrown. */
  method AllowedReadAuditsEveryEvent(userUtils: UserUtils, first: AuthzAuditEvent, second: AuthzAuditEvent)
    returns (thrown: Option<SessionException>, written: seq<AuthzAuditEvent>)
    ensures thrown.None?
    ensures written == [first, second]
  {
    var engine := (req: AccessRequest) => Evaluation(AccessResult(true, true, None), [first, second]);
    var session := Configure(engine, userUtils, None, None, None,
                             Some("read"), Some(User("alice")), Some("orders"), None, None);
    var request;
    request, thrown, written := EvaluateWithFreshHandler(session);
  }

  /** A column without a column family is refused before the engine is
      consulted: no request and no result exist afterwards. */
  method ColumnWithoutFamilyIsRefused(engine: AccessRequest -> Evaluation, userUtils: UserUtils)
    returns (thrown: Option<SessionException>, request: Option<AccessRequest>, result: Option<AccessResult>)
    ensures thrown == Some(IllegalStateException(ColumnFamilyMissing))
    ensures request.None? && result.None?
  {
    var session := Configure(engine, userUtils, None, None, None,
                             Some("read"), Some(User("alice")), Some("orders"), None, Some("ssn"));
    thrown := session.BuildRequest();
    request, result := session.request, session.result;
  }

  /** A session reused after an evaluation: the second request reflects only
      the fields as they are now, and the earlier result is gone. */
  method RebuiltRequestForgetsEarlierState(engine: AccessRequest -> Evaluation, userUtils: UserUtils)
    returns (request: Option<AccessRequest>, result: Option<AccessResult>)
    ensures result.None?
    ensures request.Some? && request.value.accessType == "write"
    ensures request.value.resource == Resource(Some("orders"), Some(""), None)
  {
    var session := Configure(engine, userUtils, None, None, None,
                             Some("read"), Some(User("alice")), Some("orders"), Some("pii"), Some("ssn"));
    var failure := session.BuildRequest();
    assert failure.None? && session.request.Some?;
    failure := session.Authorize();
    assert session.result.Some?;
    session.SetAccess(Some("write"));
    session.SetColumnFamily(Some(""));
    session.SetColumn(None);
    assert session.access == Some("write") && session.user == Some(User("alice"));
    assert session.table == Some("orders") && session.columnFamily == Some("") && session.column == None;
    failure := session.BuildRequest();
    assert failure.None?;
    request, result := session.request, session.result;
  }
}
