/** Classification of the requesting user: forbidden, service account, node
    agent or regular user, checked in that order. */
module Identity {
  import opened GoStrings
  import opened Policy

  /** A service account's name carries the service-account prefix. No such
      name carries the node prefix: the two differ at index 7. */
  function IsServiceAccount(user: string): (r: bool)
    ensures r ==> !HasPrefix(user, NodePrefix)
  {
    var r := HasPrefix(user, ServiceAccountPrefix);
    assert r ==> user[7] == ServiceAccountPrefix[7];
    r
  }

  /** A node agent's name carries the node prefix, and so never the
      service-account prefix. */
  function IsNode(user: string): (r: bool)
    ensures r ==> !HasPrefix(user, ServiceAccountPrefix)
  {
    var r := HasPrefix(user, NodePrefix);
    assert r ==> user[7] == NodePrefix[7];
    r
  }

  /** Scans the forbidden list for an exact, case-sensitive match. */
  method IsForbiddenUser(userToCheck: string, forbiddenUsers: seq<string>) returns (found: bool)
    ensures found <==> userToCheck in forbiddenUsers
  {
    for i := 0 to |forbiddenUsers|
      invariant userToCheck !in forbiddenUsers[..i]
    {
      if forbiddenUsers[i] == userToCheck {
        return true;
      }
      assert forbiddenUsers[..i + 1] == forbiddenUsers[..i] + [forbiddenUsers[i]];
    }
    assert forbiddenUsers[..|forbiddenUsers|] == forbiddenUsers;
    return false;
  }

  datatype IdentityClass = Forbidden | ServiceAccount | NodeAgent | Regular

  /** The class of a user; the first matching check wins. Because the two
      trusted prefixes exclude each other, only the forbidden check's
      precedence matters. */
  function ClassOf(user: string, forbiddenUsers: seq<string>): (c: IdentityClass)
    ensures c == Forbidden <==> user in forbiddenUsers
    ensures c == ServiceAccount <==> user !in forbiddenUsers && IsServiceAccount(user)
    ensures c == NodeAgent <==> user !in forbiddenUsers && IsNode(user)
    ensures c == Regular <==> user !in forbiddenUsers && !IsServiceAccount(user) && !IsNode(user)
  {
    if user in forbiddenUsers then Forbidden
    else if IsServiceAccount(user) then ServiceAccount
    else if IsNode(user) then NodeAgent
    else Regular
  }

  /** The administrator is forbidden whatever the environment says. */
  lemma AdminAlwaysForbidden(env: string)
    ensures ClassOf(SystemAdminUser, ForbiddenUsers(env)) == Forbidden
  {
  }

  /** Listing a service account or node agent as forbidden takes its trust
      away. */
  lemma ForbiddenOverridesPrefix(user: string, forbiddenUsers: seq<string>)
    requires IsServiceAccount(user) || IsNode(user)
    requires user in forbiddenUsers
    ensures ClassOf(user, forbiddenUsers) == Forbidden
  {
  }
}
