/** The verdict for an operation that needs a user check: forbidden users are
    denied, service accounts and node agents are allowed, and a regular user
    must supply (or must not supply) an acceptable reason. */
module Decision {
  import opened Wrappers
  import opened GoStrings
  import opened Admission
  import opened Policy
  import opened Identity
  import opened Operations
  import opened Reasons
  import opened Events

  /** A verdict and the event that goes with it, if any. */
  datatype Outcome = Outcome(verdict: Verdict, event: Option<Event>)

  /** The denial for a forbidden user opens with the user's quoted name. */
  function ForbiddenUserMessage(user: string, op: Operation): (m: string)
    ensures HasPrefix(m, Quote(user))
  {
    var q := Quote(user);
    var rest := " user is not allowed to " + op.Name()
      + " a node. Please log in with a LDAP privileged user. You must also add "
      + Quote(ReasonAnnotation) + " annotation";
    assert (q + rest)[..|q|] == q;
    q + rest
  }

  const ServiceAccountLabel: string := "Service account"
  const NodeAgentLabel: string := "Node"

  /** The approval of a trusted user: the label of its kind, then the user's
      quoted name. */
  function TrustedMessage(kind: string, user: string): (m: string)
    ensures HasPrefix(m, kind + " " + Quote(user))
  {
    var head := kind + " " + Quote(user);
    assert (head + " is allowed to do everything")[..|head|] == head;
    head + " is allowed to do everything"
  }

  /** The approval of a reasoned operation opens with the operation's name. */
  function ApprovedMessage(op: Operation): (m: string)
    ensures HasPrefix(m, op.Name())
  {
    op.Name() + " operation has been approved"
  }

  /** The denial of an unaccepted reason quotes the reason and ends with the
      allowed reasons in brackets. */
  function InvalidReasonMessage(reason: string, allowedReasons: seq<string>): (m: string)
    ensures HasPrefix(m, "Invalid reason " + Quote(reason))
    ensures m[|m| - 1] == ']'
  {
    "Invalid reason " + Quote(reason) + ". Allowed reasons: " + FormatList(allowedReasons)
  }

  const MissingReasonMessage: string := "You must add " + Quote(ReasonAnnotation) + " annotation"

  const RemoveReasonMessage: string :=
    "Don't forget to remove the " + Quote(ReasonAnnotation) + " annotation from the node"

  const NoReasonApprovedMessage: string := "Operation approved"

  /** The four denials are told apart by their first character, so a denied
      client can see which rule refused it. */
  lemma DenialMessagesDiffer(user: string, op: Operation, reason: string, allowedReasons: seq<string>)
    ensures var forbidden, invalid := ForbiddenUserMessage(user, op), InvalidReasonMessage(reason, allowedReasons);
      && forbidden[0] == '"' && invalid[0] == 'I'
      && MissingReasonMessage[0] == 'Y' && RemoveReasonMessage[0] == 'D'
      && forbidden != invalid && forbidden != MissingReasonMessage && forbidden != RemoveReasonMessage
      && invalid != MissingReasonMessage && invalid != RemoveReasonMessage
      && MissingReasonMessage != RemoveReasonMessage
  {
    var forbidden, invalid := ForbiddenUserMessage(user, op), InvalidReasonMessage(reason, allowedReasons);
    assert forbidden[0] == '"' by {
      assert forbidden[0] == Quote(user)[0];
    }
    assert invalid[0] == 'I' by {
      assert invalid[0] == "Invalid reason "[0];
    }
    assert MissingReasonMessage[0] == 'Y';
    assert RemoveReasonMessage[0] == 'D';
  }

  /** The approvals of a service account, of a node agent, of an accepted
      reason and of a reason-free operation differ from one another. */
  lemma ApprovalMessagesDiffer(sa: string, agent: string, op: Operation)
    ensures TrustedMessage(ServiceAccountLabel, sa) != TrustedMessage(NodeAgentLabel, agent)
    ensures TrustedMessage(ServiceAccountLabel, sa) != ApprovedMessage(op)
    ensures TrustedMessage(NodeAgentLabel, agent) != ApprovedMessage(op)
    ensures TrustedMessage(ServiceAccountLabel, sa) != NoReasonApprovedMessage
    ensures TrustedMessage(NodeAgentLabel, agent) != NoReasonApprovedMessage
    ensures ApprovedMessage(op) != NoReasonApprovedMessage
  {
    var s, n, a := TrustedMessage(ServiceAccountLabel, sa), TrustedMessage(NodeAgentLabel, agent), ApprovedMessage(op);
    assert s[0] == 'S' by {
      assert s[0] == (ServiceAccountLabel + " " + Quote(sa))[0];
    }
    assert n[0] == 'N' by {
      assert n[0] == (NodeAgentLabel + " " + Quote(agent))[0];
    }
    assert NoReasonApprovedMessage[0] == 'O';
    assert a[0] == op.Name()[0];
  }

  /** Operations that must come without a reason: allowed exactly when the
      annotation is absent. */
  function ValidateNoReason(reasonExists: bool): (v: Verdict)
    ensures v.allowed <==> !reasonExists
    ensures v.message != ""
    ensures v.allowed ==> v.message == NoReasonApprovedMessage
    ensures !v.allowed ==> v.message == RemoveReasonMessage
  {
    if reasonExists then Denied(RemoveReasonMessage) else Allowed(NoReasonApprovedMessage)
  }

  /** The decision table, by the class of the user. The event is attached to
      `node` and carries the reason text, or no text where the operation
      must come without a reason. */
  function UserOnlyDecision(
    node: Node, op: Operation, user: string, forbiddenUsers: seq<string>,
    reason: string, isReasonRequired: bool, doesReasonExist: bool,
    allowedReasons: seq<string>, reasonPattern: string, engine: Engine): (o: Outcome)
    ensures o.event.Some? <==> o.verdict.allowed
    ensures o.event.Some? ==> o.event.value.involved == node
    ensures o.event.Some? ==> EventOperation(o.event.value) == op.Name()
    ensures o.verdict.message != ""
  {
    var text := if isReasonRequired || ClassOf(user, forbiddenUsers) != Regular then reason else "";
    var event := Some(NodeEvent(node, text, user, op.Name()));
    match ClassOf(user, forbiddenUsers)
    case Forbidden => Outcome(Denied(ForbiddenUserMessage(user, op)), None)
    case ServiceAccount => Outcome(Allowed(TrustedMessage(ServiceAccountLabel, user)), event)
    case NodeAgent => Outcome(Allowed(TrustedMessage(NodeAgentLabel, user)), event)
    case Regular =>
      if !isReasonRequired then
        var v := ValidateNoReason(doesReasonExist);
        Outcome(v, if v.allowed then event else None)
      else if !doesReasonExist then
        Outcome(Denied(MissingReasonMessage), None)
      else if Accepted(allowedReasons, reasonPattern, engine, op, reason) then
        Outcome(Allowed(ApprovedMessage(op)), event)
      else
        Outcome(Denied(InvalidReasonMessage(reason, allowedReasons)), None)
  }

  /** Checks the user and the reason for an operation, recording one event
      for the node when the operation is allowed. */
  method UserOnlyOperation(
    node: Node, recorder: EventRecorder, op: Operation, user: string, forbiddenUsers: seq<string>,
    reason: string, isReasonRequired: bool, doesReasonExist: bool,
    allowedReasons: seq<string>, reasonPattern: string, engine: Engine) returns (v: Verdict)
    modifies recorder
    ensures var o := UserOnlyDecision(node, op, user, forbiddenUsers, reason, isReasonRequired,
                                      doesReasonExist, allowedReasons, reasonPattern, engine);
      v == o.verdict && recorder.events == old(recorder.events) + ToSeq(o.event)
  {
    var forbidden := IsForbiddenUser(user, forbiddenUsers);
    if forbidden {
      return Denied(ForbiddenUserMessage(user, op));
    }
    if IsServiceAccount(user) {
      CreateNodeEvent(node, recorder, reason, user, op.Name());
      return Allowed(TrustedMessage(ServiceAccountLabel, user));
    }
    if IsNode(user) {
      CreateNodeEvent(node, recorder, reason, user, op.Name());
      return Allowed(TrustedMessage(NodeAgentLabel, user));
    }
    if isReasonRequired {
      if doesReasonExist {
        var listed := ReasonIsAllowed(allowedReasons, reason);
        if listed || ReasonMatchesPattern(engine, reasonPattern, reason) || IsReasonFreetext(op, reason) {
          CreateNodeEvent(node, recorder, reason, user, op.Name());
          return Allowed(ApprovedMessage(op));
        }
        return Denied(InvalidReasonMessage(reason, allowedReasons));
      } else {
        return Denied(MissingReasonMessage);
      }
    } else {
      v := ValidateNoReason(doesReasonExist);
      if v.allowed {
        CreateNodeEvent(node, recorder, "", user, op.Name());
      }
    }
  }

  /** A forbidden user is denied every operation, whatever the reason, and no
      event is recorded. */
  lemma ForbiddenWins(
    node: Node, op: Operation, user: string, forbiddenUsers: seq<string>,
    reason: string, isReasonRequired: bool, doesReasonExist: bool,
    allowedReasons: seq<string>, reasonPattern: string, engine: Engine)
    requires user in forbiddenUsers
    ensures var o := UserOnlyDecision(node, op, user, forbiddenUsers, reason, isReasonRequired,
                                      doesReasonExist, allowedReasons, reasonPattern, engine);
      o.verdict == Denied(ForbiddenUserMessage(user, op)) && o.event == None
  {
  }

  /** A service account or node agent that is not forbidden is allowed every
      operation, with or without a reason, and one event carrying the reason
      text is recorded. */
  lemma TrustedBypass(
    node: Node, op: Operation, user: string, forbiddenUsers: seq<string>,
    reason: string, isReasonRequired: bool, doesReasonExist: bool,
    allowedReasons: seq<string>, reasonPattern: string, engine: Engine)
    requires user !in forbiddenUsers
    requires IsServiceAccount(user) || IsNode(user)
    ensures var o := UserOnlyDecision(node, op, user, forbiddenUsers, reason, isReasonRequired,
                                      doesReasonExist, allowedReasons, reasonPattern, engine);
      o.verdict.allowed && o.event == Some(NodeEvent(node, reason, user, op.Name()))
  {
  }

  /** A regular user who must give a reason: an absent reason is denied with
      an instruction to add it, a present one is allowed exactly when it is
      accepted, and a rejected one is denied with the allowed reasons. */
  lemma ReasonRequiredForRegularUser(
    node: Node, op: Operation, user: string, forbiddenUsers: seq<string>,
    reason: string, doesReasonExist: bool,
    allowedReasons: seq<string>, reasonPattern: string, engine: Engine)
    requires ClassOf(user, forbiddenUsers) == Regular
    ensures var o := UserOnlyDecision(node, op, user, forbiddenUsers, reason, true,
                                      doesReasonExist, allowedReasons, reasonPattern, engine);
      && (o.verdict.allowed <==> doesReasonExist && Accepted(allowedReasons, reasonPattern, engine, op, reason))
      && (!doesReasonExist ==> o.verdict.message == MissingReasonMessage)
      && (doesReasonExist && !o.verdict.allowed ==> o.verdict.message == InvalidReasonMessage(reason, allowedReasons))
      && (o.verdict.allowed ==> o.event == Some(NodeEvent(node, reason, user, op.Name())))
  {
  }

  /** A regular user whose operation must come without a reason gets the
      verdict of `ValidateNoReason`, and an event with empty text when
      allowed. */
  lemma NoReasonForRegularUser(
    node: Node, op: Operation, user: string, forbiddenUsers: seq<string>,
    reason: string, doesReasonExist: bool,
    allowedReasons: seq<string>, reasonPattern: string, engine: Engine)
    requires ClassOf(user, forbiddenUsers) == Regular
    ensures var o := UserOnlyDecision(node, op, user, forbiddenUsers, reason, false,
                                      doesReasonExist, allowedReasons, reasonPattern, engine);
      && o.verdict == ValidateNoReason(doesReasonExist)
      && (o.verdict.allowed ==> o.event == Some(NodeEvent(node, "", user, op.Name())))
  {
  }

  /** A regular user may delete with any non-empty reason. */
  lemma RegularDeleteWithAnyText(
    node: Node, user: string, forbiddenUsers: seq<string>, reason: string,
    allowedReasons: seq<string>, reasonPattern: string, engine: Engine)
    requires ClassOf(user, forbiddenUsers) == Regular
    requires reason != ""
    ensures UserOnlyDecision(node, Operation.Delete, user, forbiddenUsers, reason, true,
                             true, allowedReasons, reasonPattern, engine).verdict
         == Allowed(ApprovedMessage(Operation.Delete))
  {
    DeleteAcceptsAnyText(allowedReasons, reasonPattern, engine, reason);
  }
}
