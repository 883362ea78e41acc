# HBase authorization session — a Dafny model

This project models Apache Ranger's HBase plugin authorization session
(`AuthorizationSession`). The session is a reusable, fluent object owned by one
caller. The caller sets the operation, access, user, table, column family,
column and an optional audit handler, then drives four steps:

1. `buildRequest` validates the fields, drops the previous request and result,
   and builds a fresh access request.
2. `authorize` hands the request and the attached handler to the policy engine
   and keeps the result.
3. `publishResults` sends audit events to the handler. On allow it sends every
   captured event; on deny only the most recent one. It then throws
   `AccessDeniedException` when the result is not an allow.
4. The accessors `isAuthorized`, `getDenialReason` and `isAudited` read the
   result, with defaults when there is none.

Two "known pattern" operations set a result directly, without the engine.

Files:

- `authz_types.dfy` (module `AuthzTypes`): nullable strings (`Str`, where
  `None` is Java's `null`), `isProvided`, the resource-path prefix rule, the
  request, the result, audit events, the collaborator interfaces and the
  exceptions.
- `audit_handler.dfy` (module `AuditHandling`): the audit handler as a class,
  the outcome-dependent selection rule `SelectForOutcome`, the audit log
  `Logged`, and lemmas about the log over many authorization rounds.
- `authorization_session.dfy` (module `Session`): the session as a class whose
  fields mirror the Java fields. Each method's `modifies` clause names only the
  fields it assigns, and its `ensures` states the new state.
- `session_scenarios.dfy` (module `SessionScenarios`): callers that drive a
  session through the protocol. Their results follow from the contracts alone.

Collaborators are parameters:

- The policy engine is a function from a request to an `Evaluation`: the
  result, plus the events the engine captures into the attached handler.
- The user utilities are a pair of functions: user to name, and user to
  groups.
- The audit handler keeps its captured events and the list of every
  `logAuthzAudits` argument. A null argument is `None`.

Java exceptions are returned as values (`Option<SessionException>` or
`Fallible<T>`).

Behaviour of the code worth noting:

- The `AccessDeniedException` message names the user and the action but not
  the denial reason (`AuthorizationSession.java:233`).
- A denial with no user set throws a `NullPointerException` in place of the
  denial exception, because the message dereferences the user. This can happen
  after `knownPatternDisallowedNotAudited` on a session without a user.
- `isAudited` throws a `NullPointerException` when there is neither a result
  nor a request (line 241). Both cases are modelled as outcomes.

## Model

| member | source | states |
|---|---|---|
| `AuthzTypes.IsProvided` | hbase-agent/src/main/java/org/apache/ranger/authorization/hbase/AuthorizationSession.java:149-151 | A string is provided exactly when it is neither null nor the empty string. |
| `Session.BuildResult` | hbase-agent/src/main/java/org/apache/ranger/authorization/hbase/AuthorizationSession.java:335-341 | The hand-made result carries exactly the given allowed flag, audited flag and reason. |
| `Session.CheckBuildable` | hbase-agent/src/main/java/org/apache/ranger/authorization/hbase/AuthorizationSession.java:114-151 | A request may be built exactly when access is provided, the user is non-null and the path keeps its prefix rule. Each rule is checked in the source's order, and each reported failure names a rule that really is broken. A buildable path with a column also has a table. |
| `Session.AuthorizationSession.VerifyBuildable` | hbase-agent/src/main/java/org/apache/ranger/authorization/hbase/AuthorizationSession.java:114-142 | Reports exactly the `IllegalStateException` cause that `CheckBuildable` gives for the current fields, and changes nothing. |
| `Session.AuthorizationSession.ZapAuthorizationState` | hbase-agent/src/main/java/org/apache/ranger/authorization/hbase/AuthorizationSession.java:144-147 | Afterwards there is no request and no result; no other field changes. |
| `Session.AuthorizationSession.BuildRequest` | hbase-agent/src/main/java/org/apache/ranger/authorization/hbase/AuthorizationSession.java:153-175 | When validation fails, it throws that cause and leaves the request and the result as they were. Otherwise the result is cleared and the request is built only from the current resource, access, user name, groups, operation, other information and remote address. The session invariant is kept. |
| `Session.AuthorizationSession.Authorize` | hbase-agent/src/main/java/org/apache/ranger/authorization/hbase/AuthorizationSession.java:177-196 | With no request, it throws the protocol error and nothing changes. Otherwise the result becomes the engine's verdict on the request. The engine's events are appended to an attached handler's captures. No other session field changes. |
| `Session.AuthorizationSession.PublishResults` | hbase-agent/src/main/java/org/apache/ranger/authorization/hbase/AuthorizationSession.java:198-235 | Throws exactly when `IsAuthorized()` is false. The throw is an `AccessDeniedException` carrying `DenialMessage`, or a null dereference when no user is set. An attached handler receives exactly one `logAuthzAudits` call, whose argument is `SelectForOutcome` of its captures. The audit log grows by those events. Its captures become `KeptAfterPublish` of the old ones: unchanged on allow or when there were none, and without the most recent one on deny. |
| `Session.AuthorizationSession.IsAudited` | hbase-agent/src/main/java/org/apache/ranger/authorization/hbase/AuthorizationSession.java:237-247 | Returns the result's audited flag. Returns false when there is a request but no result. Throws a null dereference when there is neither. |
| `Session.AuthorizationSession.IsAuthorized` | hbase-agent/src/main/java/org/apache/ranger/authorization/hbase/AuthorizationSession.java:249-258 | False when there is no result; otherwise the result's allowed flag. |
| `Session.AuthorizationSession.GetDenialReason` | hbase-agent/src/main/java/org/apache/ranger/authorization/hbase/AuthorizationSession.java:260-272 | The empty string when there is no result or the result is an allow; otherwise the result's reason, which may be null. |
| `Session.AuthorizationSession.KnownPatternAllowedNotAudited` | hbase-agent/src/main/java/org/apache/ranger/authorization/hbase/AuthorizationSession.java:314-317 | Only the result changes: it becomes allowed, not audited, with the given reason. The session is then authorized and not audited. |
| `Session.AuthorizationSession.KnownPatternDisallowedNotAudited` | hbase-agent/src/main/java/org/apache/ranger/authorization/hbase/AuthorizationSession.java:319-341 | Only the result changes: it becomes denied, not audited, with the given reason. The session is then not authorized, and its denial reason is the given one. |
| `Session.DenialMessage` | hbase-agent/src/main/java/org/apache/ranger/authorization/hbase/AuthorizationSession.java:233 | The denial message contains the user's name and the requested access (Java's "null" when the access is null). |
| `Session.AuthorizationSession.constructor` | hbase-agent/src/main/java/org/apache/ranger/authorization/hbase/AuthorizationSession.java:43-67 | Keeps the given engine and user utilities. Every mutable field starts null, with no handler, request or result. The session invariant holds. |
| `Session.AuthorizationSession.SetOperation` | hbase-agent/src/main/java/org/apache/ranger/authorization/hbase/AuthorizationSession.java:69-72 | Assigns only the operation. |
| `Session.AuthorizationSession.SetOtherInformation` | hbase-agent/src/main/java/org/apache/ranger/authorization/hbase/AuthorizationSession.java:74-77 | Assigns only the other information. |
| `Session.AuthorizationSession.SetRemoteAddress` | hbase-agent/src/main/java/org/apache/ranger/authorization/hbase/AuthorizationSession.java:79-82 | Assigns only the remote address. |
| `Session.AuthorizationSession.SetAccess` | hbase-agent/src/main/java/org/apache/ranger/authorization/hbase/AuthorizationSession.java:84-87 | Assigns only the access. |
| `Session.AuthorizationSession.SetUser` | hbase-agent/src/main/java/org/apache/ranger/authorization/hbase/AuthorizationSession.java:89-98 | Assigns the user and the cached groups only. The groups are null for a null user and the resolver's groups otherwise, so the invariant "groups follow the user" is kept. |
| `Session.AuthorizationSession.SetTable` | hbase-agent/src/main/java/org/apache/ranger/authorization/hbase/AuthorizationSession.java:99-102 | Assigns only the table. |
| `Session.AuthorizationSession.SetColumnFamily` | hbase-agent/src/main/java/org/apache/ranger/authorization/hbase/AuthorizationSession.java:104-107 | Assigns only the column family. |
| `Session.AuthorizationSession.SetColumn` | hbase-agent/src/main/java/org/apache/ranger/authorization/hbase/AuthorizationSession.java:109-112 | Assigns only the column. |
| `Session.AuthorizationSession.SetAuditHandler` | hbase-agent/src/main/java/org/apache/ranger/authorization/hbase/AuthorizationSession.java:325-333 | Assigns only the handler; null is allowed and suppresses auditing. |
| `AuditHandling.SelectForOutcome` | hbase-agent/src/main/java/org/apache/ranger/authorization/hbase/AuthorizationSession.java:202-217 | The argument is null exactly when nothing was captured. On allow it holds every capture in order. On deny it holds at most one event, the most recent capture. |
| `AuditHandling.KeptAfterPublish` | hbase-agent/src/main/java/org/apache/ranger/authorization/hbase/AuthorizationSession.java:207-217 | On allow the handler keeps every capture. On deny, what it keeps followed by what was logged is exactly what was captured before. |
| `AuditHandling.LoggedAppend` | hbase-agent/src/main/java/org/apache/ranger/authorization/hbase/AuthorizationSession.java:224 | One more `logAuthzAudits` call extends the audit log by exactly its events, at the end; a null argument adds nothing. |
| `AuditHandling.AllowedRoundsLogEverything` | hbase-agent/src/main/java/org/apache/ranger/authorization/hbase/AuthorizationSession.java:207-211 | Over any number of allowed rounds, the audit log equals every captured event, in capture order. |
| `AuditHandling.DeniedRoundsLogLastCaptures` | hbase-agent/src/main/java/org/apache/ranger/authorization/hbase/AuthorizationSession.java:203-217 | Over any number of denied rounds, the audit log is exactly the most recent capture of each round that captured anything, in round order. |
| `AuditHandling.DeniedRoundsLogAtMostOneEach` | hbase-agent/src/main/java/org/apache/ranger/authorization/hbase/AuthorizationSession.java:212-217 | Corollary of the equation above: over denied rounds, the log holds at most as many events as there are rounds. |
| `AuditHandling.DeniedRoundsLogOnlyLastEvents` | hbase-agent/src/main/java/org/apache/ranger/authorization/hbase/AuthorizationSession.java:203-217 | Corollary of the same equation: over denied rounds, every logged event is the most recent capture of some round, so earlier exploratory checks never reach the log. |
| `AuditHandling.AuditHandler.Capture` | hbase-agent/src/main/java/org/apache/ranger/authorization/hbase/AuthorizationSession.java:186-187 | The engine's events are appended to the captures, in order. |
| `AuditHandling.AuditHandler.GetCapturedEvents` | hbase-agent/src/main/java/org/apache/ranger/authorization/hbase/AuthorizationSession.java:208 | Returns the captured events, in capture order. |
| `AuditHandling.AuditHandler.DiscardMostRecentEvent` | hbase-agent/src/main/java/org/apache/ranger/authorization/hbase/AuthorizationSession.java:213 | Returns null when nothing is captured. Otherwise returns the last capture and removes it, leaving the earlier ones. |
| `AuditHandling.AuditHandler.LogAuthzAudits` | hbase-agent/src/main/java/org/apache/ranger/authorization/hbase/AuthorizationSession.java:224 | Records the argument as one more call, and the written log grows by its events. |
| `SessionScenarios.EvaluateWithFreshHandler` | hbase-agent/src/main/java/org/apache/ranger/authorization/hbase/AuthorizationSession.java:153-235 | For any engine and any configured session that passes validation, one evaluation with a fresh handler works as follows. The request carries the configured fields. The audit log receives `SelectForOutcome` of the engine's outcome and events. The call throws exactly on a denial, and the throw is the denial exception naming the user and access. |
| `SessionScenarios.OneRoundLog` | hbase-agent/src/main/java/org/apache/ranger/authorization/hbase/AuthorizationSession.java:201-224 | The log of one evaluation with a fresh handler is the one-round case of the multi-round audit log. |
| `SessionScenarios.DeniedReadAuditsLastEvent` | hbase-agent/src/main/java/org/apache/ranger/authorization/hbase/AuthorizationSession.java:198-235 | A denied read by alice on orders/pii, after two captures, audits only the later event. The caller gets an `AccessDeniedException` naming alice and "read". |
| `SessionScenarios.AllowedReadAuditsEveryEvent` | hbase-agent/src/main/java/org/apache/ranger/authorization/hbase/AuthorizationSession.java:198-224 | An allowed read, after two captures, audits both in order and throws nothing. |
| `SessionScenarios.ColumnWithoutFamilyIsRefused` | hbase-agent/src/main/java/org/apache/ranger/authorization/hbase/AuthorizationSession.java:137-141 | A column without a column family fails the build with that cause, and no request or result exists afterwards. |
| `SessionScenarios.RebuiltRequestForgetsEarlierState` | hbase-agent/src/main/java/org/apache/ranger/authorization/hbase/AuthorizationSession.java:144-175 | A session reused after an evaluation builds a request from its current fields only, and the earlier result is gone. |

`IsAuthorized` and `GetDenialReason` are functions of the session's fields, so
repeated calls with no change in between return the same values.

## Left out

- Logging and message formatting (`requestToString`, `getPrintableValue`, `getRequestMessage`, `getLogMessage`, every `LOG` call): they only produce log text.
- The `_factory == null` check in `verifyBuildable`: the factory is a singleton and is taken to be always present.
- The fluent return of `this` from the setters, `buildRequest`, `authorize` and the known-pattern methods: every one returns the receiver. The model's methods return only the exception they would throw.
- The policy engine's internals: it is a parameter, a function from request to result plus captured events. `createAccessResult` is taken to make a result whose allowed, audited and reason fields are all then set by `buildResult`.
- The user utilities' internals: they are two functions, user to name and user to group set.
- `HbaseAuditHandler`'s implementation is outside this model. It is assumed that `getCapturedEvents` returns the captures without clearing them and never returns null, and that `discardMostRecentEvent` removes and returns the last capture.
- Audit handler reuse: `buildRequest` does not clear the handler's captures. The multi-round lemmas and `SessionScenarios.EvaluateWithFreshHandler` assume a fresh handler for each round; that is an assumption about callers, not something the session enforces.
- Concurrency: a session is confined to one thread. Nothing here models sharing a session or a handler between threads.
- `KafkaAuditProvider` (the Kafka audit delivery), `ServiceKafkaClient` (the Kafka resource lookup client) and `PatchPersmissionModel_J10003` (a migration patch): they are not part of the HBase authorization session.
