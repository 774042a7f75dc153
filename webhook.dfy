/** The admission handler for node requests: it reads the policy, decodes the
    node objects, classifies the operation and hands it to the decision
    table, recording an event for the allowed operations. */
module Webhook {
  import opened Wrappers
  import opened GoStrings
  import opened Admission
  import opened Policy
  import opened Identity
  import opened Operations
  import opened Reasons
  import opened Events
  import opened Decision

  /** The handler's answer and the event it records, if any. */
  datatype HandleOutcome = HandleOutcome(response: Response, event: Option<Event>)

  const NodeUpdatedMessage: string := "Node was updated"

  /** The internal error for an unreadable ConfigMap wraps the cause. */
  function FetchFailureMessage(cause: string): (m: string)
    ensures |m| >= |cause| && m[|m| - |cause|..] == cause
  {
    "failed to fetch allowed reasons: " + cause
  }

  /** A request whose object cannot be decoded is a bad request naming the
      node, with no event. */
  function DecodeFailure(req: Request): (o: HandleOutcome)
    ensures o.response.Errored? && o.response.code == StatusBadRequest && o.event.None?
    ensures HasPrefix(o.response.message, "failed to decode node " + Quote(req.name))
  {
    HandleOutcome(Errored(StatusBadRequest, "failed to decode node " + Quote(req.name)), None)
  }

  function Lift(o: Outcome): HandleOutcome
  {
    HandleOutcome(Decided(o.verdict), o.event)
  }

  /** The reason annotation of a node: its value and whether it is set. */
  function ReasonOf(node: Node): (string, bool)
  {
    Lookup(node.annotations, ReasonAnnotation)
  }

  /** An update or connect request whose objects both decode and are both
      schedulable. */
  predicate IsPlainUpdate(req: Request)
  {
    req.verb != Verb.Create && req.verb != Verb.Delete
    && req.oldObject.Some? && req.newObject.Some?
    && !req.oldObject.value.unschedulable && !req.newObject.value.unschedulable
  }

  /** The properties every branch of the handler keeps: an event exactly for
      the allowed operations other than plain updates, attached to the zero
      node, and a message on every decision. */
  ghost predicate WellFormed(req: Request, o: HandleOutcome)
  {
    && (o.event.Some? <==> o.response.Decided? && o.response.verdict.allowed && !IsPlainUpdate(req))
    && (o.event.Some? ==> o.event.value.involved == ZeroNode)
    && (o.response.Decided? ==> o.response.verdict.message != "")
  }

  /** A delete: the reason comes from the old object. */
  function HandleDelete(req: Request, forbiddenUsers: seq<string>, policy: ReasonPolicy, engine: Engine): (o: HandleOutcome)
    requires req.verb == Verb.Delete
    ensures WellFormed(req, o)
    ensures o.event.Some? ==> EventOperation(o.event.value) == Operation.Delete.Name()
  {
    if req.oldObject.None? then DecodeFailure(req)
    else
      var (reason, doesReasonExist) := ReasonOf(req.oldObject.value);
      Lift(UserOnlyDecision(ZeroNode, Operation.Delete, req.username, forbiddenUsers, reason, true,
                            doesReasonExist, policy.allowedReasons, policy.reasonPattern, engine))
  }

  /** A create: allowed exactly without a reason, whoever asks; the event
      names the raw admission verb. */
  function HandleCreate(req: Request): (o: HandleOutcome)
    requires req.verb == Verb.Create
    ensures WellFormed(req, o)
    ensures o.event.Some? ==> EventOperation(o.event.value) == Verb.Create.Name()
  {
    if req.newObject.None? then DecodeFailure(req)
    else
      var v := ValidateNoReason(ReasonOf(req.newObject.value).1);
      HandleOutcome(Decided(v),
                    if v.allowed then Some(NodeEvent(ZeroNode, "", req.username, req.verb.Name())) else None)
  }

  /** Any other verb: the old object and then the new one are decoded into
      the same node, and the update is classified against the zero node's
      schedulability. The node is therefore unschedulable when either object
      is, and it carries the annotations of both. */
  function HandleUpdate(req: Request, forbiddenUsers: seq<string>, policy: ReasonPolicy, engine: Engine): (o: HandleOutcome)
    requires req.verb != Verb.Create && req.verb != Verb.Delete
    ensures WellFormed(req, o)
    ensures o.event.Some? ==> EventOperation(o.event.value) == Cordon.Name()
  {
    if req.oldObject.None? || req.newObject.None? then DecodeFailure(req)
    else
      var node := DecodeInto(DecodeInto(ZeroNode, req.oldObject.value), req.newObject.value);
      var (reason, doesReasonExist) := ReasonOf(node);
      match ClassifyUpdate(ZeroNode.unschedulable, node.unschedulable)
      case Guarded(op) =>
        Lift(UserOnlyDecision(ZeroNode, op, req.username, forbiddenUsers, reason, op == Cordon,
                              doesReasonExist, policy.allowedReasons, policy.reasonPattern, engine))
      case PlainUpdate =>
        HandleOutcome(Decided(Allowed(NodeUpdatedMessage)), None)
  }

  /** What the handler does with a request, given the value of the forbidden
      users variable, the outcome of reading the ConfigMap and the regular
      expression engine. Events are attached to the zero node, and updates
      are classified against a node that was schedulable before: the old
      object is never decoded into `oldNode`. */
  function HandleDecision(req: Request, env: string, fetch: ConfigFetch, engine: Engine): (o: HandleOutcome)
    ensures WellFormed(req, o)
    ensures fetch.FetchFailed? ==> o.response.Errored? && o.event.None?
  {
    var forbiddenUsers := ForbiddenUsers(env);
    match GetAllowedReasonsAndPattern(fetch)
    case Failure(err) =>
      HandleOutcome(Errored(StatusInternalServerError, FetchFailureMessage(err)), None)
    case Success(policy) =>
      match req.verb
      case Delete => HandleDelete(req, forbiddenUsers, policy, engine)
      case Create => HandleCreate(req)
      case _ => HandleUpdate(req, forbiddenUsers, policy, engine)
  }

  /** The validator, holding the event recorder that the decisions write to. */
  class NodeValidator {
    const recorder: EventRecorder

    constructor (recorder: EventRecorder)
      ensures this.recorder == recorder
    {
      this.recorder := recorder;
    }

    method Handle(req: Request, env: string, fetch: ConfigFetch, engine: Engine) returns (resp: Response)
      modifies recorder
      ensures var o := HandleDecision(req, env, fetch, engine);
        resp == o.response && recorder.events == old(recorder.events) + ToSeq(o.event)
    {
      var node := ZeroNode;
      var oldNode := ZeroNode;
      var user := req.username;
      var forbiddenUsers := ForbiddenUsers(env);

      var config := GetAllowedReasonsAndPattern(fetch);
      if config.Failure? {
        return Errored(StatusInternalServerError, FetchFailureMessage(config.error));
      }
      var allowedReasons, reasonRegex := config.value.allowedReasons, config.value.reasonPattern;

      match req.verb {
        case Delete =>
          if req.oldObject.None? {
            return DecodeFailure(req).response;
          }
          node := DecodeInto(node, req.oldObject.value);
          DecodeIntoZero(req.oldObject.value);
          var (reason, doesReasonExist) := ReasonOf(node);
          var v := UserOnlyOperation(oldNode, recorder, Operation.Delete, user, forbiddenUsers, reason, true,
                                     doesReasonExist, allowedReasons, reasonRegex, engine);
          return Decided(v);
        case Create =>
          if req.newObject.None? {
            return DecodeFailure(req).response;
          }
          node := DecodeInto(node, req.newObject.value);
          DecodeIntoZero(req.newObject.value);
          var (_, doesReasonExist) := ReasonOf(node);
          var v := ValidateNoReason(doesReasonExist);
          if v.allowed {
            CreateNodeEvent(oldNode, recorder, "", user, req.verb.Name());
          }
          return Decided(v);
        case _ =>
          if req.oldObject.None? {
            return DecodeFailure(req).response;
          }
          node := DecodeInto(node, req.oldObject.value);
          if req.newObject.None? {
            return DecodeFailure(req).response;
          }
          node := DecodeInto(node, req.newObject.value);
          var (reasonMessage, doesReasonExist) := ReasonOf(node);
          match ClassifyUpdate(oldNode.unschedulable, node.unschedulable) {
            case Guarded(op) =>
              // a cordon needs a reason, an uncordon must come without one
              var v := UserOnlyOperation(oldNode, recorder, op, user, forbiddenUsers, reasonMessage, op == Cordon,
                                         doesReasonExist, allowedReasons, reasonRegex, engine);
              return Decided(v);
            case PlainUpdate =>
              return Decided(Allowed(NodeUpdatedMessage));
          }
      }
    }
  }

  /** When the ConfigMap cannot be read, every request ends in an internal
      error, before any object is decoded, and nothing is recorded. */
  lemma FetchFailureIsInternalError(req: Request, env: string, cause: string, engine: Engine)
    ensures HandleDecision(req, env, FetchFailed(cause), engine)
         == HandleOutcome(Errored(StatusInternalServerError, FetchFailureMessage(FetchErrorMessage(cause))), None)
  {
  }

  /** No request reaches the uncordon rule: events only ever report create,
      delete or cordon. */
  lemma UncordonUnreachable(req: Request, env: string, fetch: ConfigFetch, engine: Engine)
    ensures var o := HandleDecision(req, env, fetch, engine);
      o.event.Some? ==> EventOperation(o.event.value) in {Verb.Create.Name(), Operation.Delete.Name(), Cordon.Name()}
  {
  }

  /** An update in which either object is unschedulable is decided as a
      cordon, with the reason annotation of the new object decoded over the
      old one. */
  lemma UnschedulableUpdateIsCordon(req: Request, env: string, data: map<string, string>, engine: Engine)
    requires req.verb == Verb.Update && req.oldObject.Some? && req.newObject.Some?
    requires req.oldObject.value.unschedulable || req.newObject.value.unschedulable
    ensures var policy := GetAllowedReasonsAndPattern(Fetched(data)).value;
      var (reason, present) := ReasonOf(DecodeInto(req.oldObject.value, req.newObject.value));
      HandleDecision(req, env, Fetched(data), engine)
        == Lift(UserOnlyDecision(ZeroNode, Cordon, req.username, ForbiddenUsers(env), reason, true,
                                 present, policy.allowedReasons, policy.reasonPattern, engine))
  {
    DecodeIntoZero(req.oldObject.value);
  }

  /** An uncordon is decided as a cordon: a forbidden user is denied the
      cordon, and a regular user who uncordons without any reason annotation
      is told to add one. */
  lemma UncordonIsDecidedAsCordon(req: Request, env: string, data: map<string, string>, engine: Engine)
    requires req.verb == Verb.Update && req.oldObject.Some? && req.newObject.Some?
    requires req.oldObject.value.unschedulable && !req.newObject.value.unschedulable
    ensures var o := HandleDecision(req, env, Fetched(data), engine);
      && (o.event.Some? ==> EventOperation(o.event.value) == Cordon.Name())
      && (req.username in ForbiddenUsers(env) ==>
            o == HandleOutcome(Decided(Denied(ForbiddenUserMessage(req.username, Cordon))), None))
      && (ClassOf(req.username, ForbiddenUsers(env)) == Regular
          && ReasonAnnotation !in req.oldObject.value.annotations
          && ReasonAnnotation !in req.newObject.value.annotations ==>
            o == HandleOutcome(Decided(Denied(MissingReasonMessage)), None))
  {
    UnschedulableUpdateIsCordon(req, env, data, engine);
  }

  /** Removing the reason annotation in an update to a cordoned node goes
      unseen: the old object's reason is still decided on. */
  lemma RemovedReasonStillSeen(req: Request, env: string, data: map<string, string>, engine: Engine)
    requires req.verb == Verb.Update && req.oldObject.Some? && req.newObject.Some?
    requires req.oldObject.value.unschedulable || req.newObject.value.unschedulable
    requires ReasonAnnotation in req.oldObject.value.annotations
    requires ReasonAnnotation !in req.newObject.value.annotations
    ensures var policy := GetAllowedReasonsAndPattern(Fetched(data)).value;
      HandleDecision(req, env, Fetched(data), engine)
        == Lift(UserOnlyDecision(ZeroNode, Cordon, req.username, ForbiddenUsers(env),
                                 req.oldObject.value.annotations[ReasonAnnotation], true,
                                 true, policy.allowedReasons, policy.reasonPattern, engine))
  {
    UnschedulableUpdateIsCordon(req, env, data, engine);
  }

  /** The update branch as evidently intended: the old object decoded into
      `oldNode` and the new one into a fresh `node`. A cordon needs a reason,
      an uncordon must come without one, and the event is attached to the
      old node. */
  function IntendedUpdate(req: Request, forbiddenUsers: seq<string>, policy: ReasonPolicy, engine: Engine): (o: HandleOutcome)
    requires req.verb != Verb.Create && req.verb != Verb.Delete
    ensures o.event.Some? <==>
      && o.response.Decided? && o.response.verdict.allowed
      && req.oldObject.Some? && req.newObject.Some?
      && req.oldObject.value.unschedulable != req.newObject.value.unschedulable
    ensures o.event.Some? ==>
      && o.event.value.involved == req.oldObject.value
      && EventOperation(o.event.value) == (if req.newObject.value.unschedulable then Cordon else Uncordon).Name()
  {
    if req.oldObject.None? || req.newObject.None? then DecodeFailure(req)
    else
      var oldNode, node := req.oldObject.value, req.newObject.value;
      var (reason, doesReasonExist) := ReasonOf(node);
      match ClassifyUpdate(oldNode.unschedulable, node.unschedulable)
      case Guarded(op) =>
        Lift(UserOnlyDecision(oldNode, op, req.username, forbiddenUsers, reason, op == Cordon,
                              doesReasonExist, policy.allowedReasons, policy.reasonPattern, engine))
      case PlainUpdate =>
        HandleOutcome(Decided(Allowed(NodeUpdatedMessage)), None)
  }

  /** Under the intended decoding, a regular user's uncordon without a reason
      annotation is approved, with an uncordon event on the old node. */
  lemma IntendedUncordon(req: Request, forbiddenUsers: seq<string>, policy: ReasonPolicy, engine: Engine)
    requires req.verb == Verb.Update && req.oldObject.Some? && req.newObject.Some?
    requires req.oldObject.value.unschedulable && !req.newObject.value.unschedulable
    requires ClassOf(req.username, forbiddenUsers) == Regular
    requires ReasonAnnotation !in req.newObject.value.annotations
    ensures IntendedUpdate(req, forbiddenUsers, policy, engine)
         == HandleOutcome(Decided(Allowed(NoReasonApprovedMessage)),
                          Some(NodeEvent(req.oldObject.value, "", req.username, Uncordon.Name())))
  {
    NoReasonForRegularUser(req.oldObject.value, Uncordon, req.username, forbiddenUsers, "", false,
                           policy.allowedReasons, policy.reasonPattern, engine);
  }

  /** Under the intended decoding, a regular user's uncordon that keeps the
      reason annotation is told to remove it. */
  lemma IntendedUncordonKeepingReason(req: Request, forbiddenUsers: seq<string>, policy: ReasonPolicy, engine: Engine)
    requires req.verb == Verb.Update && req.oldObject.Some? && req.newObject.Some?
    requires req.oldObject.value.unschedulable && !req.newObject.value.unschedulable
    requires ClassOf(req.username, forbiddenUsers) == Regular
    requires ReasonAnnotation in req.newObject.value.annotations
    ensures IntendedUpdate(req, forbiddenUsers, policy, engine)
         == HandleOutcome(Decided(Denied(RemoveReasonMessage)), None)
  {
    var reason := req.newObject.value.annotations[ReasonAnnotation];
    NoReasonForRegularUser(req.oldObject.value, Uncordon, req.username, forbiddenUsers, reason, true,
                           policy.allowedReasons, policy.reasonPattern, engine);
  }

  /** A create is decided by the annotation alone: the user does not matter,
      and the event names the raw admission verb. */
  lemma CreateIgnoresIdentity(req: Request, other: string, env: string, data: map<string, string>, engine: Engine)
    requires req.verb == Verb.Create && req.newObject.Some?
    ensures var o := HandleDecision(req, env, Fetched(data), engine);
      && o.response == Decided(ValidateNoReason(ReasonAnnotation in req.newObject.value.annotations))
      && o.response == HandleDecision(req.(username := other), env, Fetched(data), engine).response
      && (o.event.Some? ==> o.event.value == NodeEvent(ZeroNode, "", req.username, "CREATE"))
  {
  }

  /** A delete reads its reason from the old object only. */
  lemma DeleteReadsOldObject(req: Request, replacement: Option<Node>, env: string, fetch: ConfigFetch, engine: Engine)
    requires req.verb == Verb.Delete
    ensures HandleDecision(req.(newObject := replacement), env, fetch, engine) == HandleDecision(req, env, fetch, engine)
  {
  }

  /** A regular user's delete with a non-empty reason is allowed, whatever
      reasons are configured. */
  lemma RegularDeleteWithText(req: Request, env: string, data: map<string, string>, engine: Engine)
    requires req.verb == Verb.Delete && req.oldObject.Some?
    requires ClassOf(req.username, ForbiddenUsers(env)) == Regular
    requires ReasonAnnotation in req.oldObject.value.annotations
    requires req.oldObject.value.annotations[ReasonAnnotation] != ""
    ensures HandleDecision(req, env, Fetched(data), engine).response
         == Decided(Allowed(ApprovedMessage(Operation.Delete)))
  {
    var policy := GetAllowedReasonsAndPattern(Fetched(data)).value;
    RegularDeleteWithAnyText(ZeroNode, req.username, ForbiddenUsers(env),
                             req.oldObject.value.annotations[ReasonAnnotation],
                             policy.allowedReasons, policy.reasonPattern, engine);
  }

  /** With Go's engine and no pattern configured, a regular user's cordon with
      any reason annotation is allowed. */
  lemma NoPatternAdmitsAnyCordonReason(req: Request, env: string, data: map<string, string>, engine: Engine)
    requires EmptyPatternMatchesAll(engine)
    requires ReasonRegexPatternKey !in data
    requires req.verb == Verb.Update && req.oldObject.Some? && req.newObject.Some?
    requires req.newObject.value.unschedulable
    requires ClassOf(req.username, ForbiddenUsers(env)) == Regular
    requires ReasonAnnotation in req.newObject.value.annotations
    ensures HandleDecision(req, env, Fetched(data), engine).response
         == Decided(Allowed(ApprovedMessage(Cordon)))
  {
    var policy := GetAllowedReasonsAndPattern(Fetched(data)).value;
    DecodeIntoZero(req.oldObject.value);
    EmptyPatternAcceptsAll(policy.allowedReasons, engine, Cordon, req.newObject.value.annotations[ReasonAnnotation]);
  }
}
