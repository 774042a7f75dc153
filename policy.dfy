/** The fixed constants of the policy and the configuration it reads on every
    request: the forbidden users from the environment and the reason policy
    from a ConfigMap. */
module Policy {
  import opened Wrappers
  import opened GoStrings

  const ReasonAnnotation: string := "node.dana.io/reason"
  const ServiceAccountPrefix: string := "system:serviceaccount:"
  const NodePrefix: string := "system:node:"
  const SystemAdminUser: string := "system:admin"
  /** Name of the environment variable holding the forbidden users; its value
      is a parameter of this model. */
  const ForbiddenUsersEnv: string := "forbiddenUsers"
  const ConfigMapName: string := "node-operation-validator-config"
  const ConfigMapNamespace: string := "node-operation-validator-system"
  const ReasonRegexPatternKey: string := "reasonRegexPattern"
  const AllowedReasonsKey: string := "allowedReasons"
  const EventReason: string := "NodeOperation"

  /** The forbidden users: the comma-separated pieces of the environment
      value, with the built-in administrator appended. */
  function ForbiddenUsers(env: string): (users: seq<string>)
    ensures |users| >= 2
    ensures users[|users| - 1] == SystemAdminUser
    ensures SystemAdminUser in users
    ensures forall i :: 0 <= i < |users| - 1 ==> ',' !in users[i]
    ensures Join(users[..|users| - 1], ",") == env
  {
    JoinSplit(env, ',');
    var users := Split(env, ',') + [SystemAdminUser];
    assert users[..|users| - 1] == Split(env, ',');
    users
  }

  /** The outcome of reading the ConfigMap: its data, or the client's error. */
  datatype ConfigFetch = Fetched(data: map<string, string>) | FetchFailed(cause: string)

  /** The reason policy taken from the ConfigMap. */
  datatype ReasonPolicy = ReasonPolicy(allowedReasons: seq<string>, reasonPattern: string)

  /** The fetch error names the ConfigMap and ends with the client's cause. */
  function FetchErrorMessage(cause: string): (m: string)
    ensures HasPrefix(m, "failed to fetch ConfigMap " + ConfigMapNamespace + "/" + ConfigMapName)
    ensures |m| >= |cause| && m[|m| - |cause|..] == cause
  {
    "failed to fetch ConfigMap " + ConfigMapNamespace + "/" + ConfigMapName + ": " + cause
  }

  /** The allowed reasons (comma-separated) and the reason pattern. A missing
      key reads as the empty string; only a failed fetch is an error. */
  function GetAllowedReasonsAndPattern(fetch: ConfigFetch): (r: Result<ReasonPolicy>)
    ensures r.Failure? <==> fetch.FetchFailed?
    ensures fetch.FetchFailed? ==> r.error == FetchErrorMessage(fetch.cause)
    ensures fetch.Fetched? ==>
      && |r.value.allowedReasons| >= 1
      && (forall i :: 0 <= i < |r.value.allowedReasons| ==> ',' !in r.value.allowedReasons[i])
      && Join(r.value.allowedReasons, ",") == Lookup(fetch.data, AllowedReasonsKey).0
      && r.value.reasonPattern == Lookup(fetch.data, ReasonRegexPatternKey).0
  {
    match fetch
    case FetchFailed(cause) => Failure(FetchErrorMessage(cause))
    case Fetched(data) =>
      var (allowedReasons, _) := Lookup(data, AllowedReasonsKey);
      var (regexPattern, _) := Lookup(data, ReasonRegexPatternKey);
      JoinSplit(allowedReasons, ',');
      Success(ReasonPolicy(Split(allowedReasons, ','), regexPattern))
  }

  /** Missing keys are not an error: they give one empty allowed reason and
      the empty pattern. */
  lemma MissingKeysGiveEmptyPolicy(data: map<string, string>)
    requires AllowedReasonsKey !in data && ReasonRegexPatternKey !in data
    ensures GetAllowedReasonsAndPattern(Fetched(data)) == Success(ReasonPolicy([""], ""))
  {
  }

  /** A configured list of comma-free reasons is read back exactly. */
  lemma ConfiguredReasonsReadBack(data: map<string, string>, reasons: seq<string>)
    requires |reasons| >= 1
    requires forall i :: 0 <= i < |reasons| ==> ',' !in reasons[i]
    requires AllowedReasonsKey in data && data[AllowedReasonsKey] == Join(reasons, ",")
    ensures GetAllowedReasonsAndPattern(Fetched(data)).Success?
    ensures GetAllowedReasonsAndPattern(Fetched(data)).value.allowedReasons == reasons
  {
    SplitJoin(reasons, ',');
  }

  /** An unset environment variable forbids the empty user name besides the
      administrator. */
  lemma UnsetEnvForbidsEmptyName()
    ensures ForbiddenUsers("") == ["", SystemAdminUser]
  {
  }

  /** A comma-free environment value forbids exactly that user and the
      administrator. */
  lemma SingleForbiddenUser(user: string)
    requires ',' !in user
    ensures ForbiddenUsers(user) == [user, SystemAdminUser]
  {
    SplitJoin([user], ',');
  }
}
