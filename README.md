# node-operation-validator: a verified model of the node admission policy

This project models the decision engine of the `node-operation-validator`
admission webhook in Dafny. The webhook sees every create, delete and update
of a Kubernetes node and returns allow or deny with a message. When it allows
an operation other than a plain update, it records one `NodeOperation` event.

The model has these parts:

- **Operation classification** (`Operations`, `Webhook`). The admission verb
  picks the branch. Delete and create are decided directly. Any other verb is
  an update: the node's `Spec.Unschedulable` going false→true is a cordon,
  true→false is an uncordon, and anything else is a plain update. Plain
  updates are always allowed.
- **Decoding** (`Admission`). `DecodeInto` is what decoding an object's JSON
  does to a node that already holds values: the flag can be set but not
  cleared, and the object's annotations are added to the node's.
- **Identity classification** (`Identity`). The checks run in this order: the
  forbidden list (exact match), the `system:serviceaccount:` prefix, the
  `system:node:` prefix, and otherwise a regular user.
- **Reason policy** (`Reasons`). A reason is accepted when any of these hold:
  it equals an allowed reason ignoring case, it matches the configured
  pattern, or the operation is a delete and the reason is not empty.
- **Decision table** (`Decision`). `userOnlyOperation` and
  `validateNoReason` are modelled by a pure table, `UserOnlyDecision`, and by
  the method `UserOnlyOperation`. The method follows the source's branches,
  records the event on the recorder, and is proved equal to the table.
- **Configuration** (`Policy`). The forbidden users are the comma-split
  environment value with `system:admin` appended. The allowed reasons and
  the pattern are read from the ConfigMap's data. A missing key gives the
  empty string, and a failed fetch is an error.
- **Audit events** (`Events`). `EventRecorder` collects events in a
  sequence. `CreateNodeEvent` appends one event whose reason is
  `NodeOperation: <op>` and whose message is `<user>: <text>`.
- **The handler** (`Webhook`). `NodeValidator.Handle` wires these together.
  It is proved equal to the pure function `HandleDecision`. The lemmas are
  stated about `HandleDecision`.
- **The test table** (`Scenarios`). The rows of `webhook_test.go` are stated
  as lemmas about the model.

The quirks of the code are reproduced, not repaired:

- `Handle` decodes the old object and then the new one into the same
  variable `node`. The variable `oldNode` therefore stays the zero node, and
  every update is classified as if the node had been schedulable before. The
  second decode fills the node that the first one produced. A node's JSON
  leaves out `unschedulable` when it is false, so the node is unschedulable
  whenever either object is. It also carries the annotations of both
  objects. As a result:
  - every update that touches a cordoned node is decided as a cordon
    (`UnschedulableUpdateIsCordon`);
  - an uncordon is decided as a cordon too (`UncordonIsDecidedAsCordon`);
  - no request reaches the uncordon rule (`UncordonUnreachable`);
  - a reason annotation removed in the same update still counts
    (`RemovedReasonStillSeen`).
  Every event is attached to the zero node.
- A delete reads its reason from the old object (`DeleteReadsOldObject`).
- A create bypasses the identity checks (`CreateIgnoresIdentity`). Its event
  names the raw admission verb `CREATE`, while the other events use
  lower-case names such as `delete`.
- The pattern is handed to Go's `regexp.MatchString`. That search is
  unanchored, and the empty pattern matches every string. So when no pattern
  is configured, every present reason is accepted
  (`NoPatternAdmitsAnyCordonReason`).
- The test row `DeleteAsUserWithoutValidReason`
  (internal/webhook/webhook_test.go:51) expects a regular user's delete with
  reason "for fun" to be denied. The code allows it through the free-text
  rule (`DeleteRows`).
- The test rows for uncordon are nested inside the cordon branch of the test,
  so they never run. They hold of the decision table (`UncordonRows`).
  Through the handler each of those requests is decided as a cordon on the
  old object's reason. The administrator is denied and the service account
  is allowed, as the table expects. The regular user's two rows come out
  reversed: the uncordon with reason "Testing" is allowed and the one
  without a reason is denied (`UncordonDenialsThroughHandler`,
  `UncordonApprovalsThroughHandler`).

The engine is deterministic: every decision is a function of the request, the
environment value, the ConfigMap and the regular-expression engine.

## Model

| member | source | states |
|---|---|---|
| `GoStrings.Split` | internal/webhook/webhook.go:59 | `strings.Split` on a one-character separator: at least one piece, and no piece contains the separator |
| `GoStrings.JoinSplit` | internal/webhook/webhook.go:203 | joining the split pieces with the separator gives back the original string |
| `GoStrings.SplitJoin` | internal/webhook/webhook.go:203 | splitting the join of one or more separator-free pieces gives back exactly those pieces |
| `GoStrings.Lookup` | internal/webhook/webhook.go:191-201 | Go's comma-ok map index: present with the stored value, or absent with the empty string |
| `GoStrings.EqualFold` | internal/webhook/webhook.go:210 | two strings are equal ignoring case exactly when they have the same length and agree character by character after ASCII lower-casing |
| `GoStrings.Quote` | internal/webhook/webhook.go:114 | `%q` of a string is a literal opening and closing with a double quote |
| `GoStrings.EscapeInjective` | internal/webhook/webhook.go:114 | different strings are escaped differently |
| `GoStrings.QuoteInjective` | internal/webhook/webhook.go:114 | a `%q`-quoted user or reason in a message names exactly one string |
| `GoStrings.FormatList` | internal/webhook/webhook.go:135 | `%v` of a list of strings is bracketed |
| `GoStrings.FormatListReadBack` | internal/webhook/webhook.go:135 | when no allowed reason contains a space, splitting the bracketed text at spaces gives back the list |
| `Admission.DecodeInto` | internal/webhook/webhook.go:88-91 | decoding into a node that holds values: unschedulable when either is, with the annotations of both, the object's entry winning on a shared key |
| `Admission.DecodeIntoZero` | internal/webhook/webhook.go:55 | decoding into the zero node gives the object itself |
| `Policy.ForbiddenUsers` | internal/webhook/webhook.go:59-60 | the forbidden list always ends with `system:admin`; the entries before it are comma-free and join back to the environment value |
| `Policy.FetchErrorMessage` | internal/webhook/webhook.go:188 | the fetch error names the ConfigMap as namespace/name and ends with the client's cause |
| `Policy.GetAllowedReasonsAndPattern` | internal/webhook/webhook.go:182-205 | a failed fetch, and only that, is an error carrying the ConfigMap's namespace and name; otherwise the reasons are the comma-free pieces of the `allowedReasons` value and the pattern is the `reasonRegexPattern` value, each "" when its key is missing |
| `Policy.MissingKeysGiveEmptyPolicy` | internal/webhook/webhook.go:191-204 | missing keys are not an error: they yield the reasons `[""]` and the pattern "" |
| `Policy.ConfiguredReasonsReadBack` | internal/webhook/webhook.go:203-204 | a configured comma-joined list of reasons is read back exactly |
| `Policy.UnsetEnvForbidsEmptyName` | internal/webhook/webhook.go:59-60 | an unset environment variable forbids the empty user name and `system:admin` |
| `Policy.SingleForbiddenUser` | internal/webhook/webhook.go:59-60 | a comma-free environment value forbids that user and `system:admin` |
| `Identity.IsServiceAccount` | internal/webhook/webhook.go:162-165 | a name with the service-account prefix never has the node prefix |
| `Identity.IsNode` | internal/webhook/webhook.go:167-169 | a name with the node prefix never has the service-account prefix |
| `Identity.IsForbiddenUser` | internal/webhook/webhook.go:172-179 | the scan returns true exactly when the user is in the forbidden list, with case-sensitive comparison |
| `Identity.ClassOf` | internal/webhook/webhook.go:111-126 | forbidden exactly for listed users; a service account or a node agent exactly for unlisted users with that prefix; regular otherwise |
| `Identity.AdminAlwaysForbidden` | internal/webhook/webhook.go:60 | `system:admin` is forbidden whatever the environment says |
| `Identity.ForbiddenOverridesPrefix` | internal/webhook/webhook.go:111-124 | a listed user is forbidden even with a trusted prefix |
| `Operations.NameInjective` | internal/webhook/webhook.go:37-40 | the four operation names are distinct, so an operation is known from its name |
| `Operations.ClassifyUpdate` | internal/webhook/webhook.go:95-104 | cordon exactly when unschedulable goes false→true, uncordon exactly when it goes true→false, a plain update exactly when it is unchanged |
| `Reasons.ReasonIsAllowed` | internal/webhook/webhook.go:208-215 | the scan returns true exactly when some allowed reason equals the reason ignoring case |
| `Reasons.ReasonMatchesPattern` | internal/webhook/webhook.go:218-221 | a pattern that fails to compile never matches; otherwise the result is whether the search found a match |
| `Reasons.IsReasonFreetext` | internal/webhook/webhook.go:223-227 | free text is accepted only for a delete, and every non-empty delete reason is free text |
| `Reasons.Accepted` | internal/webhook/webhook.go:129 | a present reason is accepted exactly when it is listed up to case, the engine finds the pattern in it, or it is a non-empty delete reason |
| `Reasons.ListedIgnoresCase` | internal/webhook/webhook.go:210 | reasons equal up to case are listed alike |
| `Reasons.LowerCaseReasonListed` | internal/webhook/webhook.go:210 | "testing" is accepted by an allowed list holding "Testing" |
| `Reasons.DeleteAcceptsAnyText` | internal/webhook/webhook.go:129 | any non-empty reason is accepted for a delete, whatever the policy |
| `Reasons.EmptyPatternAcceptsAll` | internal/webhook/webhook.go:219 | with Go's engine, the empty pattern accepts every reason for every operation |
| `Reasons.BrokenPatternFallsBack` | internal/webhook/webhook.go:219-220 | with a pattern that does not compile, acceptance comes from the list or the free-text rule only |
| `Reasons.EmptyEntryAcceptsEmptyReason` | internal/webhook/webhook.go:203 | an empty allowed entry accepts an empty reason annotation |
| `Reasons.CordonNeedsListOrPattern` | internal/webhook/webhook.go:129 | an unlisted cordon reason is accepted exactly when the pattern search succeeds |
| `Events.NodeEvent` | internal/webhook/webhook.go:229-233 | an event is a normal event on the given node; its reason gives back the operation and its message gives back the text |
| `Events.EventNamesOneOperation` | internal/webhook/webhook.go:231 | two events with the same reason report the same operation |
| `Events.EventRecorder.Record` | internal/webhook/webhook.go:233 | recording appends exactly that event |
| `Events.CreateNodeEvent` | internal/webhook/webhook.go:230-234 | one event `NodeOperation: <op>` / `<user>: <text>` is appended to the recorder, nothing else changes |
| `Decision.ForbiddenUserMessage` | internal/webhook/webhook.go:114 | the denial of a forbidden user opens with the user's quoted name |
| `Decision.TrustedMessage` | internal/webhook/webhook.go:119-124 | a trusted user's approval opens with the label of its kind ("Service account" or "Node") and then the user's quoted name |
| `Decision.ApprovedMessage` | internal/webhook/webhook.go:132 | the approval of an accepted reason opens with the operation's name |
| `Decision.InvalidReasonMessage` | internal/webhook/webhook.go:135 | the denial of an unaccepted reason opens with "Invalid reason " and the quoted reason, and ends with the bracketed allowed reasons |
| `Decision.DenialMessagesDiffer` | internal/webhook/webhook.go:114-155 | the forbidden-user, invalid-reason, missing-reason and remove-annotation denials differ from one another, already in their first character |
| `Decision.ApprovalMessagesDiffer` | internal/webhook/webhook.go:119-158 | the service-account, node-agent, accepted-reason and reason-free approvals differ from one another |
| `Decision.ValidateNoReason` | internal/webhook/webhook.go:152-160 | allowed exactly when the annotation is absent; "Operation approved" when allowed, the remove-annotation message when denied |
| `Decision.UserOnlyDecision` | internal/webhook/webhook.go:110-148 | an event exactly on allow, attached to the given node and naming the operation; every verdict has a message |
| `Decision.UserOnlyOperation` | internal/webhook/webhook.go:110-148 | the verdict of the decision table, with the recorder extended by exactly the table's event |
| `Decision.ForbiddenWins` | internal/webhook/webhook.go:112-114 | a forbidden user is denied every operation with every reason, and no event is recorded |
| `Decision.TrustedBypass` | internal/webhook/webhook.go:116-124 | an unlisted service account or node agent is always allowed, and one event carries the reason text |
| `Decision.ReasonRequiredForRegularUser` | internal/webhook/webhook.go:127-139 | a regular user's required reason: allowed exactly when present and accepted; "You must add" when absent; the allowed reasons listed when rejected; an event with the reason on allow |
| `Decision.NoReasonForRegularUser` | internal/webhook/webhook.go:140-146 | a regular user's reason-free operation gets the verdict of `ValidateNoReason`, and an event with empty text on allow |
| `Decision.RegularDeleteWithAnyText` | internal/webhook/webhook.go:127-132 | a regular user's delete with any non-empty reason is approved |
| `Webhook.FetchFailureMessage` | internal/webhook/webhook.go:64 | the internal error for an unreadable ConfigMap ends with the cause |
| `Webhook.DecodeFailure` | internal/webhook/webhook.go:69-70 | an undecodable object is a status-400 error naming the quoted node, with no event |
| `Webhook.HandleDelete` | internal/webhook/webhook.go:68-73 | a delete keeps the event and message invariant, and its event reports `delete` |
| `Webhook.HandleCreate` | internal/webhook/webhook.go:75-84 | a create keeps the event and message invariant, and its event reports the raw verb `CREATE` |
| `Webhook.HandleUpdate` | internal/webhook/webhook.go:86-104 | an update, with both objects decoded into one node, keeps the event and message invariant; a plain update is one where neither object is unschedulable; its only event is a cordon |
| `Webhook.HandleDecision` | internal/webhook/webhook.go:52-106 | an event exactly for allowed decisions other than plain updates (neither object unschedulable), always on the zero node; every decision has a message; a failed fetch is an error with no event |
| `Webhook.NodeValidator.Handle` | internal/webhook/webhook.go:52-106 | the response of `HandleDecision`, with the recorder extended by exactly its event; the objects are decoded one after the other into the same node |
| `Webhook.FetchFailureIsInternalError` | internal/webhook/webhook.go:62-65 | a failed ConfigMap fetch is a status-500 error for every request, before any decoding, with no event |
| `Webhook.UncordonUnreachable` | internal/webhook/webhook.go:56 | no event ever reports an uncordon |
| `Webhook.UnschedulableUpdateIsCordon` | internal/webhook/webhook.go:88-97 | an update in which either object is unschedulable is decided as a cordon, on the reason of the new object decoded over the old |
| `Webhook.UncordonIsDecidedAsCordon` | internal/webhook/webhook.go:88-103 | an uncordon is decided as a cordon: a forbidden user is denied the cordon, a regular user without any reason annotation is told to add one, and any event reports a cordon |
| `Webhook.RemovedReasonStillSeen` | internal/webhook/webhook.go:88-97 | a reason annotation the new object drops from a cordoned node is still decided on |
| `Webhook.IntendedUpdate` | internal/webhook/webhook.go:88-103 | with the old object decoded into `oldNode`, an event exactly for allowed cordons and uncordons, attached to the old node, reporting the direction of the change |
| `Webhook.IntendedUncordon` | internal/webhook/webhook.go:99-100 | with the intended decoding, a regular user's uncordon without a reason is approved with an uncordon event |
| `Webhook.IntendedUncordonKeepingReason` | internal/webhook/webhook.go:99-100 | with the intended decoding, a regular user's uncordon that keeps the reason is told to remove it |
| `Webhook.CreateIgnoresIdentity` | internal/webhook/webhook.go:79-84 | a create's response depends only on the annotation's presence and not on the user; its event names `CREATE` |
| `Webhook.DeleteReadsOldObject` | internal/webhook/webhook.go:69-73 | a delete's outcome does not depend on the new object |
| `Webhook.RegularDeleteWithText` | internal/webhook/webhook.go:69-73 | a regular user's delete whose old object carries a non-empty reason is approved |
| `Webhook.NoPatternAdmitsAnyCordonReason` | internal/webhook/webhook.go:197-201 | with Go's engine and no pattern key, a regular user's cordon with any reason annotation is approved |
| `Scenarios.TestForbiddenUsers` | internal/webhook/webhook_test.go:87 | the test's environment forbids `system:admin` only |
| `Scenarios.TestPolicy` | internal/webhook/webhook_test.go:63-76 | the test ConfigMap yields its four reasons and the empty pattern |
| `Scenarios.Dispatch` | internal/webhook/webhook.go:67-87 | once the ConfigMap reads, the verb alone chooses the branch |
| `Scenarios.UpdateDispatch` | internal/webhook/webhook.go:88-103 | a decodable update is a cordon, on the reason of the new object decoded over the old, when either object is unschedulable, and a plain update otherwise |
| `Scenarios.TestSetupIsTestLike` | internal/webhook/webhook_test.go:63-90 | the test configuration forbids neither the regular user nor the service account, and lists "Testing" |
| `Scenarios.CreateRows` | internal/webhook/webhook_test.go:46-47 | the create rows hold |
| `Scenarios.DeleteRows` | internal/webhook/webhook_test.go:48-51 | the delete rows hold, except that "for fun" is allowed |
| `Scenarios.CordonDenials` | internal/webhook/webhook_test.go:52-53 | the denied cordon rows hold |
| `Scenarios.CordonApprovals` | internal/webhook/webhook_test.go:54-55 | the allowed cordon rows hold |
| `Scenarios.UncordonRows` | internal/webhook/webhook_test.go:56-59 | the uncordon rows hold of the decision table |
| `Scenarios.UncordonDenialsThroughHandler` | internal/webhook/webhook_test.go:163-177 | through the handler the administrator's uncordon is denied, as expected, and the regular user's uncordon without a reason is denied, against the table |
| `Scenarios.UncordonApprovalsThroughHandler` | internal/webhook/webhook_test.go:163-177 | through the handler the service account's uncordon is allowed, as expected, and the regular user's uncordon with "Testing" is allowed, against the table |
| `Scenarios.TestTable` | internal/webhook/webhook_test.go:46-90 | every row under the table's own environment and ConfigMap: all as the table expects except "for fun" and the regular user's two uncordon rows |

## Findings

| source | as written | input that shows it | evidently intended | confidence | as-written member | corrected member |
|---|---|---|---|---|---|---|
| internal/webhook/webhook.go:88-91 | `OldObject` and then `Object` are decoded into `node`, and `oldNode` stays the zero node, so every update is classified against a schedulable node and an uncordon becomes a cordon | a regular user uncordons a cordoned node (old object unschedulable, new object schedulable) and neither object carries the reason annotation: denied with "You must add ... annotation" | the uncordon rule applies: approved with "Operation approved" and an uncordon event | high, not executed | `Webhook.UncordonIsDecidedAsCordon` | `Webhook.IntendedUpdate` |

## Left out

- Decoding the admission objects is not modelled beyond `DecodeInto`. An
  object that is absent or cannot be decoded is `None`, and it yields the
  status-400 error.
- `Admission.DecodeInto`: only the two fields the validator reads are
  decoded. The model assumes each object's JSON leaves out `unschedulable`
  when it is false and has no annotations entry when there are none, as the
  API server encodes nodes. An annotations entry that is JSON `null`, which
  Go would decode by clearing the map, is not modelled.
- Reading the ConfigMap through the API client is a parameter, `ConfigFetch`:
  either the ConfigMap's data or the client's error text.
- The value of the `forbiddenUsers` environment variable is a parameter.
- Go's regular-expression engine is a parameter, `Engine`. It either reports
  a compile error or whether a match was found. `EmptyPatternMatchesAll`
  states the one property of Go's engine that the lemmas use.
- Logging, the event recorder's delivery to the API server, the kubebuilder
  markers, the request context, and the test scaffolding are not modelled.
- An admission response is modelled as allowed or denied with a message, or
  an error with a status code. The rest of the response envelope is not
  modelled.
- `GoStrings.EqualFold`: only ASCII letters are folded. Go's Unicode simple
  folding of other characters is not modelled.
- `GoStrings.Quote`: only `"` and `\` are escaped. Go's escaping of control
  and non-printable characters is not modelled.
- `GoStrings.FormatList`: `%v` joins the reasons with spaces, so reasons that
  contain spaces are not read back; the read-back is proved only for
  space-free reasons.
- `Decision.ValidateNoReason`: it takes only the annotation's presence. The
  source also passes the operation and the user, but only for log lines.
