/** The rows of the validator's own test table, stated as lemmas about the
    model. The table's configuration is a ConfigMap listing four reasons and
    no pattern, with the administrator as the configured forbidden user. */
module Scenarios {
  import opened Wrappers
  import opened GoStrings
  import opened Admission
  import opened Policy
  import opened Identity
  import opened Operations
  import opened Reasons
  import opened Decision
  import opened Webhook

  const TestReasons: seq<string> := ["Testing", "Unauthorized access", "Invalid configuration", "Dependency error"]
  const TestConfig: ConfigFetch := Fetched(map[AllowedReasonsKey := Join(TestReasons, ",")])
  const TestEnv: string := SystemAdminUser
  const RegularUser: string := "user"
  const MachineConfigDaemon: string := ServiceAccountPrefix + "openshift-machine-config-operator:machine-config-daemon"

  /** A node carrying the reason annotation when the reason is not empty. */
  function Annotated(reason: string, unschedulable: bool): Node
  {
    Node(if reason != "" then map[ReasonAnnotation := reason] else map[], unschedulable)
  }

  function CreateRequest(user: string, reason: string): Request
  {
    Request("node", Verb.Create, user, None, Some(Annotated(reason, false)))
  }

  function DeleteRequest(user: string, reason: string): Request
  {
    Request("node", Verb.Delete, user, Some(Annotated(reason, false)), None)
  }

  function CordonRequest(user: string, reason: string): Request
  {
    Request("node", Verb.Update, user, Some(Annotated(reason, false)), Some(Annotated(reason, true)))
  }

  function UncordonRequest(user: string, reason: string): Request
  {
    Request("node", Verb.Update, user, Some(Annotated(reason, true)), Some(Annotated(reason, false)))
  }

  predicate Allows(req: Request, env: string, fetch: ConfigFetch, engine: Engine)
  {
    var r := HandleDecision(req, env, fetch, engine).response;
    r.Decided? && r.verdict.allowed
  }

  /** What the table relies on in its configuration: the regular user and the
      service account are not forbidden, and "Testing" is an allowed reason. */
  predicate TestLike(env: string, fetch: ConfigFetch)
  {
    var forbiddenUsers := ForbiddenUsers(env);
    var policy := GetAllowedReasonsAndPattern(fetch);
    && RegularUser !in forbiddenUsers
    && MachineConfigDaemon !in forbiddenUsers
    && policy.Success?
    && "Testing" in policy.value.allowedReasons
  }

  /** The forbidden users the test environment yields. */
  lemma TestForbiddenUsers()
    ensures ForbiddenUsers(TestEnv) == [SystemAdminUser, SystemAdminUser]
  {
    SingleForbiddenUser(SystemAdminUser);
  }

  /** The reason policy the test ConfigMap yields. */
  lemma TestPolicy()
    ensures GetAllowedReasonsAndPattern(TestConfig) == Success(ReasonPolicy(TestReasons, ""))
  {
    ConfiguredReasonsReadBack(TestConfig.data, TestReasons);
  }

  /** A request under a configuration that reads: the handler for its verb. */
  lemma Dispatch(req: Request, env: string, fetch: ConfigFetch, engine: Engine)
    requires GetAllowedReasonsAndPattern(fetch).Success?
    ensures var forbiddenUsers, policy := ForbiddenUsers(env), GetAllowedReasonsAndPattern(fetch).value;
      HandleDecision(req, env, fetch, engine)
        == match req.verb
           case Delete => HandleDelete(req, forbiddenUsers, policy, engine)
           case Create => HandleCreate(req)
           case _ => HandleUpdate(req, forbiddenUsers, policy, engine)
  {
  }

  /** An update whose objects decode: a cordon, with the reason of the new
      object decoded over the old one, when either object is unschedulable;
      a plain update otherwise. */
  lemma UpdateDispatch(req: Request, forbiddenUsers: seq<string>, policy: ReasonPolicy, engine: Engine)
    requires req.verb == Verb.Update && req.oldObject.Some? && req.newObject.Some?
    ensures var node := DecodeInto(req.oldObject.value, req.newObject.value);
      var (reason, present) := ReasonOf(node);
      HandleUpdate(req, forbiddenUsers, policy, engine)
        == if req.oldObject.value.unschedulable || req.newObject.value.unschedulable
           then Lift(UserOnlyDecision(ZeroNode, Cordon, req.username, forbiddenUsers, reason, true, present,
                                      policy.allowedReasons, policy.reasonPattern, engine))
           else HandleOutcome(Decided(Allowed(NodeUpdatedMessage)), None)
  {
    DecodeIntoZero(req.oldObject.value);
  }

  /** The table's own configuration has what the rows rely on. */
  lemma TestSetupIsTestLike()
    ensures TestLike(TestEnv, TestConfig)
  {
    TestForbiddenUsers();
    TestPolicy();
  }

  /** The create rows: a create is allowed exactly without a reason. */
  lemma CreateRows(env: string, fetch: ConfigFetch, engine: Engine)
    requires TestLike(env, fetch)
    ensures !Allows(CreateRequest(RegularUser, "Testing"), env, fetch, engine)
    ensures Allows(CreateRequest(RegularUser, ""), env, fetch, engine)
  {
    Dispatch(CreateRequest(RegularUser, "Testing"), env, fetch, engine);
    Dispatch(CreateRequest(RegularUser, ""), env, fetch, engine);
  }

  /** The delete rows. The delete with reason "for fun" is allowed by the
      free-text rule, although the table expects a denial. */
  lemma DeleteRows(env: string, fetch: ConfigFetch, engine: Engine)
    requires TestLike(env, fetch)
    ensures !Allows(DeleteRequest(SystemAdminUser, "Testing"), env, fetch, engine)
    ensures !Allows(DeleteRequest(RegularUser, ""), env, fetch, engine)
    ensures Allows(DeleteRequest(RegularUser, "testing"), env, fetch, engine)
    ensures Allows(DeleteRequest(RegularUser, "for fun"), env, fetch, engine)
  {
    Dispatch(DeleteRequest(SystemAdminUser, "Testing"), env, fetch, engine);
    Dispatch(DeleteRequest(RegularUser, ""), env, fetch, engine);
    Dispatch(DeleteRequest(RegularUser, "testing"), env, fetch, engine);
    Dispatch(DeleteRequest(RegularUser, "for fun"), env, fetch, engine);
  }

  /** The cordon rows that deny: the administrator, and a regular user
      without a reason. */
  lemma CordonDenials(env: string, fetch: ConfigFetch, engine: Engine)
    requires TestLike(env, fetch)
    ensures !Allows(CordonRequest(SystemAdminUser, "Testing"), env, fetch, engine)
    ensures !Allows(CordonRequest(RegularUser, ""), env, fetch, engine)
  {
    var forbiddenUsers, policy := ForbiddenUsers(env), GetAllowedReasonsAndPattern(fetch).value;
    Dispatch(CordonRequest(SystemAdminUser, "Testing"), env, fetch, engine);
    UpdateDispatch(CordonRequest(SystemAdminUser, "Testing"), forbiddenUsers, policy, engine);
    Dispatch(CordonRequest(RegularUser, ""), env, fetch, engine);
    UpdateDispatch(CordonRequest(RegularUser, ""), forbiddenUsers, policy, engine);
  }

  /** The cordon rows that allow: a regular user with a listed reason, and a
      service account without one. */
  lemma CordonApprovals(env: string, fetch: ConfigFetch, engine: Engine)
    requires TestLike(env, fetch)
    ensures Allows(CordonRequest(RegularUser, "Testing"), env, fetch, engine)
    ensures Allows(CordonRequest(MachineConfigDaemon, ""), env, fetch, engine)
  {
    var forbiddenUsers, policy := ForbiddenUsers(env), GetAllowedReasonsAndPattern(fetch).value;
    Dispatch(CordonRequest(RegularUser, "Testing"), env, fetch, engine);
    UpdateDispatch(CordonRequest(RegularUser, "Testing"), forbiddenUsers, policy, engine);
    var i :| 0 <= i < |policy.allowedReasons| && policy.allowedReasons[i] == "Testing";
    assert EqualFold(policy.allowedReasons[i], "Testing");
    Dispatch(CordonRequest(MachineConfigDaemon, ""), env, fetch, engine);
    UpdateDispatch(CordonRequest(MachineConfigDaemon, ""), forbiddenUsers, policy, engine);
    assert HasPrefix(MachineConfigDaemon, ServiceAccountPrefix);
  }

  /** The uncordon rows hold of the decision table, which the handler never
      applies to them. */
  lemma UncordonRows(env: string, fetch: ConfigFetch, engine: Engine)
    requires TestLike(env, fetch)
    ensures var forbiddenUsers, policy := ForbiddenUsers(env), GetAllowedReasonsAndPattern(fetch).value;
      && !UserOnlyDecision(ZeroNode, Uncordon, SystemAdminUser, forbiddenUsers, "", false, false,
                           policy.allowedReasons, policy.reasonPattern, engine).verdict.allowed
      && !UserOnlyDecision(ZeroNode, Uncordon, RegularUser, forbiddenUsers, "Testing", false, true,
                           policy.allowedReasons, policy.reasonPattern, engine).verdict.allowed
      && UserOnlyDecision(ZeroNode, Uncordon, RegularUser, forbiddenUsers, "", false, false,
                          policy.allowedReasons, policy.reasonPattern, engine).verdict.allowed
      && UserOnlyDecision(ZeroNode, Uncordon, MachineConfigDaemon, forbiddenUsers, "testing", false, true,
                          policy.allowedReasons, policy.reasonPattern, engine).verdict.allowed
  {
    assert HasPrefix(MachineConfigDaemon, ServiceAccountPrefix);
  }

  /** Through the handler the uncordon requests are decided as cordons. The
      administrator is denied, as the table expects; the regular user without
      a reason is denied too, where the table expects an approval. */
  lemma UncordonDenialsThroughHandler(env: string, fetch: ConfigFetch, engine: Engine)
    requires TestLike(env, fetch)
    ensures !Allows(UncordonRequest(SystemAdminUser, ""), env, fetch, engine)
    ensures !Allows(UncordonRequest(RegularUser, ""), env, fetch, engine)
  {
    var forbiddenUsers, policy := ForbiddenUsers(env), GetAllowedReasonsAndPattern(fetch).value;
    assert SystemAdminUser in forbiddenUsers;
    Dispatch(UncordonRequest(SystemAdminUser, ""), env, fetch, engine);
    UpdateDispatch(UncordonRequest(SystemAdminUser, ""), forbiddenUsers, policy, engine);
    Dispatch(UncordonRequest(RegularUser, ""), env, fetch, engine);
    UpdateDispatch(UncordonRequest(RegularUser, ""), forbiddenUsers, policy, engine);
  }

  /** Through the handler the service account's uncordon is allowed, as the
      table expects, and so is the regular user's uncordon with a listed
      reason, where the table expects a denial. */
  lemma UncordonApprovalsThroughHandler(env: string, fetch: ConfigFetch, engine: Engine)
    requires TestLike(env, fetch)
    ensures Allows(UncordonRequest(RegularUser, "Testing"), env, fetch, engine)
    ensures Allows(UncordonRequest(MachineConfigDaemon, "testing"), env, fetch, engine)
  {
    var forbiddenUsers, policy := ForbiddenUsers(env), GetAllowedReasonsAndPattern(fetch).value;
    Dispatch(UncordonRequest(RegularUser, "Testing"), env, fetch, engine);
    UpdateDispatch(UncordonRequest(RegularUser, "Testing"), forbiddenUsers, policy, engine);
    var i :| 0 <= i < |policy.allowedReasons| && policy.allowedReasons[i] == "Testing";
    assert EqualFold(policy.allowedReasons[i], "Testing");
    Dispatch(UncordonRequest(MachineConfigDaemon, "testing"), env, fetch, engine);
    UpdateDispatch(UncordonRequest(MachineConfigDaemon, "testing"), forbiddenUsers, policy, engine);
    assert HasPrefix(MachineConfigDaemon, ServiceAccountPrefix);
  }

  /** Every row, under the table's own configuration. */
  lemma TestTable(engine: Engine)
    ensures !Allows(CreateRequest(RegularUser, "Testing"), TestEnv, TestConfig, engine)
    ensures Allows(CreateRequest(RegularUser, ""), TestEnv, TestConfig, engine)
    ensures !Allows(DeleteRequest(SystemAdminUser, "Testing"), TestEnv, TestConfig, engine)
    ensures !Allows(DeleteRequest(RegularUser, ""), TestEnv, TestConfig, engine)
    ensures Allows(DeleteRequest(RegularUser, "testing"), TestEnv, TestConfig, engine)
    ensures Allows(DeleteRequest(RegularUser, "for fun"), TestEnv, TestConfig, engine)
    ensures !Allows(CordonRequest(SystemAdminUser, "Testing"), TestEnv, TestConfig, engine)
    ensures !Allows(CordonRequest(RegularUser, ""), TestEnv, TestConfig, engine)
    ensures Allows(CordonRequest(RegularUser, "Testing"), TestEnv, TestConfig, engine)
    ensures Allows(CordonRequest(MachineConfigDaemon, ""), TestEnv, TestConfig, engine)
    ensures !Allows(UncordonRequest(SystemAdminUser, ""), TestEnv, TestConfig, engine)
    ensures Allows(UncordonRequest(RegularUser, "Testing"), TestEnv, TestConfig, engine)
    ensures !Allows(UncordonRequest(RegularUser, ""), TestEnv, TestConfig, engine)
    ensures Allows(UncordonRequest(MachineConfigDaemon, "testing"), TestEnv, TestConfig, engine)
  {
    TestSetupIsTestLike();
    CreateRows(TestEnv, TestConfig, engine);
    DeleteRows(TestEnv, TestConfig, engine);
    CordonDenials(TestEnv, TestConfig, engine);
    CordonApprovals(TestEnv, TestConfig, engine);
    UncordonDenialsThroughHandler(TestEnv, TestConfig, engine);
    UncordonApprovalsThroughHandler(TestEnv, TestConfig, engine);
  }
}
