/** The HBase plugin's authorization session: a reusable, fluent object that is
    configured, builds an access request, asks the policy engine, and publishes
    the outcome to audit and to the caller. */
module Session {
  import opened AuthzTypes
  import opened AuditHandling

  /** `verifyBuildable`: the first rule the configured fields break, or `None`
      when a request may be built. The rules are checked in the source's order. */
  function CheckBuildable(access: Str, user: Option<User>, table: Str, columnFamily: Str, column: Str): (r: Option<IllegalState>)
    ensures r.None? <==> IsProvided(access) && user.Some? && PathWellFormed(Resource(table, columnFamily, column))
    ensures r.None? ==> (IsProvided(column) ==> IsProvided(table))
    ensures r == Some(AccessIsNull) <==> !IsProvided(access)
    ensures r == Some(UserIsNull) <==> IsProvided(access) && user.None?
    ensures r == Some(TableMissing) ==> IsProvided(columnFamily) && !IsProvided(table)
    ensures r == Some(ColumnFamilyMissing) ==> IsProvided(column) && !IsProvided(columnFamily)
    ensures r != Some(RequestNotBuilt)
  {
    if !IsProvided(access) then Some(AccessIsNull)
    else if user.None? then Some(UserIsNull)
    else if IsProvided(columnFamily) && !IsProvided(table) then Some(TableMissing)
    else if IsProvided(column) && !IsProvided(columnFamily) then Some(ColumnFamilyMissing)
    else None
  }

  /** `text` contains `part` somewhere. */
  predicate Mentions(text: string, part: string) {
    exists i | 0 <= i <= |text| :: part <= text[i..]
  }

  /** The message of the `AccessDeniedException` `publishResults` throws: it
      names the user and the requested action. */
  function DenialMessage(userName: string, access: Str): (msg: string)
    ensures Mentions(msg, userName)
    ensures Mentions(msg, JavaText(access))
  {
    var lead := "Insufficient permissions for user '";
    var middle := "' (action=";
    var msg := lead + userName + middle + JavaText(access) + ")";
    assert msg[|lead|..] == userName + middle + JavaText(access) + ")";
    assert msg[|lead| + |userName| + |middle|..] == JavaText(access) + ")";
    msg
  }

  /** `buildResult`: a result made by hand, without consulting the policy engine. */
  function BuildResult(allowed: bool, audited: bool, reason: Str): (r: AccessResult)
    ensures r.isAllowed == allowed && r.isAudited == audited && r.reason == reason
  {
    AccessResult(allowed, audited, reason)
  }

  class AuthorizationSession {
    /** The policy engine's `isAccessAllowed`, fixed at construction. */
    const authorizer: AccessRequest -> Evaluation
    /** The factory's user utilities. */
    const userUtils: UserUtils

    var operation: Str
    var otherInformation: Str
    var access: Str
    var table: Str
    var column: Str
    var columnFamily: Str
    var remoteAddress: Str
    var user: Option<User>
    var groups: Option<set<string>>
    var auditHandler: AuditHandler?

    var request: Option<AccessRequest>
    var result: Option<AccessResult>

    /** The cached groups follow the user, and a request, once built, passed
        `verifyBuildable`. */
    ghost predicate Valid()
      reads this
    {
      groups == GroupsOf(userUtils, user) &&
      (request.Some? ==> RequestWellFormed(request.value))
    }

    constructor (authorizer: AccessRequest -> Evaluation, userUtils: UserUtils)
      ensures Valid()
      ensures this.authorizer == authorizer && this.userUtils == userUtils
      ensures operation.None? && otherInformation.None? && access.None? && remoteAddress.None?
      ensures table.None? && columnFamily.None? && column.None?
      ensures user.None? && groups.None? && auditHandler == null
      ensures request.None? && result.None?
    {
      this.authorizer := authorizer;
      this.userUtils := userUtils;
      operation, otherInformation, access, remoteAddress := None, None, None, None;
      table, columnFamily, column := None, None, None;
      user, groups, auditHandler := None, None, null;
      request, result := None, None;
    }

    method SetOperation(anOperation: Str)
      requires Valid()
      modifies this`operation
      ensures Valid() && operation == anOperation
    {
      operation := anOperation;
    }

    method SetOtherInformation(information: Str)
      requires Valid()
      modifies this`otherInformation
      ensures Valid() && otherInformation == information
    {
      otherInformation := information;
    }

    method SetRemoteAddress(ipAddress: Str)
      requires Valid()
      modifies this`remoteAddress
      ensures Valid() && remoteAddress == ipAddress
    {
      remoteAddress := ipAddress;
    }

    method SetAccess(anAccess: Str)
      requires Valid()
      modifies this`access
      ensures Valid() && access == anAccess
    {
      access := anAccess;
    }

    /** Sets the user and resolves its groups once; a null user has null groups. */
    method SetUser(aUser: Option<User>)
      requires Valid()
      modifies this`user, this`groups
      ensures Valid() && user == aUser
      ensures aUser.None? ==> groups.None?
      ensures aUser.Some? ==> groups == Some(userUtils.userGroups(aUser.value))
    {
      user := aUser;
      if user.None? {
        groups := None;
      } else {
        groups := Some(userUtils.userGroups(user.value));
      }
    }

    method SetTable(aTable: Str)
      requires Valid()
      modifies this`table
      ensures Valid() && table == aTable
    {
      table := aTable;
    }

    method SetColumnFamily(aColumnFamily: Str)
      requires Valid()
      modifies this`columnFamily
      ensures Valid() && columnFamily == aColumnFamily
    {
      columnFamily := aColumnFamily;
    }

    method SetColumn(aColumn: Str)
      requires Valid()
      modifies this`column
      ensures Valid() && column == aColumn
    {
      column := aColumn;
    }

    /** Attaching null suppresses auditing for later evaluations. */
    method SetAuditHandler(anAuditHandler: AuditHandler?)
      requires Valid()
      modifies this`auditHandler
      ensures Valid() && auditHandler == anAuditHandler
    {
      auditHandler := anAuditHandler;
    }

    /** `verifyBuildable`, reporting the `IllegalStateException` it would throw. */
    method VerifyBuildable() returns (thrown: Option<IllegalState>)
      ensures thrown == CheckBuildable(access, user, table, columnFamily, column)
    {
      thrown := CheckBuildable(access, user, table, columnFamily, column);
    }

    /** `zapAuthorizationState`: forget the previous request and result. */
    method ZapAuthorizationState()
      requires Valid()
      modifies this`request, this`result
      ensures Valid() && request.None? && result.None?
    {
      request := None;
      result := None;
    }

    /** Validates the configuration; on success drops the previous request and
        result and builds a request from the current fields alone. */
    method BuildRequest() returns (thrown: Option<SessionException>)
      requires Valid()
      modifies this`request, this`result
      ensures Valid()
      ensures var failure := CheckBuildable(access, user, table, columnFamily, column);
              if failure.Some? then
                thrown == Some(IllegalStateException(failure.value)) &&
                request == old(request) && result == old(result)
              else
                thrown.None? && result.None? &&
                request == Some(AccessRequest(Resource(table, columnFamily, column), access.value,
                                              userUtils.userAsString(user.value), groups,
                                              operation, otherInformation, remoteAddress))
    {
      var failure := VerifyBuildable();
      if failure.Some? {
        return Some(IllegalStateException(failure.value));
      }
      ZapAuthorizationState();
      var resource := Resource(table, columnFamily, column);
      var userName := userUtils.userAsString(user.value);
      request := Some(AccessRequest(resource, access.value, userName, groups, operation, otherInformation, remoteAddress));
      thrown := None;
    }

    /** Asks the policy engine about the built request, passing the attached
        handler (possibly null), into which the engine captures its events. */
    method Authorize() returns (thrown: Option<SessionException>)
      requires Valid()
      modifies this`result, auditHandler
      ensures Valid()
      ensures old(request).None? ==>
                thrown == Some(IllegalStateException(RequestNotBuilt)) && result == old(result) &&
                (auditHandler != null ==> unchanged(auditHandler))
      ensures old(request).Some? ==>
                thrown.None? && result == Some(authorizer(request.value).result) &&
                (auditHandler != null ==>
                   auditHandler.captured == old(auditHandler.captured) + authorizer(request.value).events &&
                   auditHandler.batches == old(auditHandler.batches))
    {
      if request.None? {
        return Some(IllegalStateException(RequestNotBuilt));
      }
      var evaluation := authorizer(request.value);
      if auditHandler != null {
        auditHandler.Capture(evaluation.events);
      }
      result := Some(evaluation.result);
      thrown := None;
    }

    /** Sends the outcome-dependent selection of captured events to the audit
        handler, if any, and then throws when the result is not an allow. */
    method PublishResults() returns (thrown: Option<SessionException>)
      requires Valid()
      modifies auditHandler
      ensures thrown.None? <==> IsAuthorized()
      ensures !IsAuthorized() ==>
                thrown == Some(if user.None? then NullPointerException
                               else AccessDeniedException(DenialMessage(user.value.name, access)))
      ensures auditHandler != null ==>
                auditHandler.batches == old(auditHandler.batches) + [SelectForOutcome(IsAuthorized(), old(auditHandler.captured))] &&
                auditHandler.Written() == old(auditHandler.Written()) + Events(SelectForOutcome(IsAuthorized(), old(auditHandler.captured)))
      ensures auditHandler != null ==> auditHandler.captured == KeptAfterPublish(IsAuthorized(), old(auditHandler.captured))
    {
      var authorized := IsAuthorized();
      if auditHandler != null {
        var events: Option<seq<AuthzAuditEvent>> := None;
        if authorized {
          var theseEvents := auditHandler.GetCapturedEvents();
          if theseEvents != [] {
            events := Some(theseEvents);
          }
        } else {
          var event := auditHandler.DiscardMostRecentEvent();
          if event.Some? {
            events := Some([event.value]);
          }
        }
        auditHandler.LogAuthzAudits(events);
      }
      if !authorized {
        if user.None? {
          return Some(NullPointerException);
        }
        return Some(AccessDeniedException(DenialMessage(user.value.name, access)));
      }
      thrown := None;
    }

    /** `isAudited`; with no result it logs the request, which throws when
        there is no request either. */
    function IsAudited(): (r: Fallible<bool>)
      reads this
      ensures result.Some? ==> r == Returns(result.value.isAudited)
      ensures result.None? && request.Some? ==> r == Returns(false)
      ensures result.None? && request.None? ==> r == Throws(NullPointerException)
    {
      if result.Some? then Returns(result.value.isAudited)
      else if request.None? then Throws(NullPointerException)
      else Returns(false)
    }

    /** False until a result exists. */
    function IsAuthorized(): (allowed: bool)
      reads this
      ensures allowed ==> result.Some?
      ensures result.Some? ==> (allowed <==> result.value.isAllowed)
    {
      result.Some? && result.value.isAllowed
    }

    /** The empty string until a result exists and for an allowed result;
        otherwise the result's reason. */
    function GetDenialReason(): (reason: Str)
      reads this
      ensures result.None? ==> reason == Some("")
      ensures result.Some? && result.value.isAllowed ==> reason == Some("")
      ensures result.Some? && !result.value.isAllowed ==> reason == result.value.reason
    {
      if result.None? || result.value.isAllowed then Some("") else result.value.reason
    }

    method KnownPatternAllowedNotAudited(reason: Str)
      requires Valid()
      modifies this`result
      ensures Valid() && result == Some(AccessResult(true, false, reason))
      ensures IsAuthorized() && IsAudited() == Returns(false)
    {
      result := Some(BuildResult(true, false, reason));
    }

    method KnownPatternDisallowedNotAudited(reason: Str)
      requires Valid()
      modifies this`result
      ensures Valid() && result == Some(AccessResult(false, false, reason))
      ensures !IsAuthorized() && IsAudited() == Returns(false) && GetDenialReason() == reason
    {
      result := Some(BuildResult(false, false, reason));
    }
  }
}
