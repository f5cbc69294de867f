/** The role check that runs after the token check. */
module RoleGate {
  import opened Wrappers

  datatype Verdict = Unauthorized | Forbidden | Allowed

  /** Some role of the user is one of the allowed roles. */
  ghost predicate Meets(userRoles: seq<string>, allowedRoles: seq<string>) {
    exists r :: r in userRoles && r in allowedRoles
  }

  /** `RequireRoles`, on the claims the token check left in the request, if any. */
  method RequireRoles(claimedRoles: Option<seq<string>>, allowedRoles: seq<string>) returns (verdict: Verdict)
    ensures verdict == Unauthorized <==> claimedRoles == None
    ensures verdict == Allowed <==> claimedRoles.Some? && Meets(claimedRoles.value, allowedRoles)
  {
    if claimedRoles == None {
      return Unauthorized;
    }
    var roles := claimedRoles.value;
    var hasAccess := false;
    for i := 0 to |roles|
      invariant !hasAccess && forall k :: 0 <= k < i ==> roles[k] !in allowedRoles
    {
      for j := 0 to |allowedRoles|
        invariant !hasAccess && roles[i] !in allowedRoles[..j]
      {
        if roles[i] == allowedRoles[j] {
          hasAccess := true;
          break;
        }
      }
      if hasAccess {
        assert roles[i] in roles && roles[i] in allowedRoles;
        break;
      }
    }
    verdict := if hasAccess then Allowed else Forbidden;
  }
}
