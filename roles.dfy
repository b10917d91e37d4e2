/** `RoleManagementMiddleware`: the five roles of the back office and the
    `CheckRole(...roles)` guard that lets a request through only when its
    role is one of the given ones. */
module RoleManagement {
  import opened Common

  const ADMIN := "ADMIN"
  const ADMIN_NOC := "ADMIN_NOC"
  const CPO_OWNER := "CPO_OWNER"
  const USER_DRIVER := "USER_DRIVER"
  const ADMIN_MARKETING := "ADMIN_MARKETING"

  /** The values of the exported `ROLES` object, in declaration order. */
  const ROLES: seq<string> := [ADMIN, ADMIN_NOC, CPO_OWNER, USER_DRIVER, ADMIN_MARKETING]

  const FORBIDDEN := "Forbidden"
  const CHECK_ROLE_ERROR := "CHECK_ROLE_ERROR"

  /** The five roles are distinct and none of them is empty. */
  lemma RolesAreDistinct()
    ensures |ROLES| == 5
    ensures forall i, j :: 0 <= i < j < |ROLES| ==> ROLES[i] != ROLES[j]
    ensures forall i :: 0 <= i < |ROLES| ==> ROLES[i] != ""
  {
  }

  /** `req.role && role.includes(req.role)`: the role must be truthy and one
      of the allowed strings (`includes` compares strictly, so only a string
      can match). */
  predicate Allowed(role: Value, roles: seq<string>) {
    Truthy(role) && role.Str? && role.s in roles
  }

  /** What the returned middleware does with a request: `next()`, or
      `next(err)` with the error it caught. */
  datatype Next = Proceed | Fail(error: Error)

  /** The verdict of the guard for a request with role `role`. */
  function Decide(role: Value, roles: seq<string>): (r: Next)
    ensures r.Proceed? <==> exists i :: 0 <= i < |roles| && role == Str(roles[i]) && roles[i] != ""
    ensures r.Fail? ==> r.error == Forbidden(FORBIDDEN)
  {
    if Allowed(role, roles) then Proceed else Fail(Forbidden(FORBIDDEN))
  }

  /** A request without a role, or with the empty role, is refused even when
      the empty string is among the allowed roles. */
  lemma MissingRoleIsForbidden(roles: seq<string>)
    ensures Decide(Undefined, roles) == Fail(Forbidden(FORBIDDEN))
    ensures Decide(Null, roles) == Fail(Forbidden(FORBIDDEN))
    ensures Decide(Str(""), roles) == Fail(Forbidden(FORBIDDEN))
  {
  }

  /** A role that is not a string never matches: the number 1 is not the
      role "1". */
  lemma OnlyStringsMatch(role: Value, roles: seq<string>)
    requires !role.Str?
    ensures Decide(role, roles).Fail?
  {
  }

  /** Allowing more roles never refuses a request that fewer roles let
      through, and a guard over no roles refuses every request. */
  lemma DecideMonotone(role: Value, roles: seq<string>, more: seq<string>)
    requires forall s :: s in roles ==> s in more
    ensures Decide(role, roles).Proceed? ==> Decide(role, more).Proceed?
    ensures Decide(role, []).Fail?
  {
  }

  /** An Express request, as far as the guard sees it: the role the
      authentication middleware put on it and the `error_name` it may set. */
  class Request {
    const role: Value
    var errorName: Option<string>

    constructor(role: Value)
      ensures this.role == role && errorName == None
    {
      this.role := role;
      errorName := None;
    }
  }

  /** The middleware `CheckRole(...roles)` returns. */
  class RoleGuard {
    const roles: seq<string>

    constructor(roles: seq<string>)
      ensures this.roles == roles
    {
      this.roles := roles;
    }

    /** `(req, res, next) => ...`: an allowed request goes on untouched; any
        other is failed with "Forbidden" and marked "CHECK_ROLE_ERROR". */
    method Handle(req: Request) returns (r: Next)
      modifies req
      ensures r == Decide(req.role, roles)
      ensures r.Proceed? ==> req.errorName == old(req.errorName)
      ensures r.Fail? ==> req.errorName == Some(CHECK_ROLE_ERROR)
    {
      if req.role.Str? && req.role.s != "" && req.role.s in roles {
        r := Proceed;
      } else {
        req.errorName := Some(CHECK_ROLE_ERROR);
        r := Fail(Forbidden(FORBIDDEN));
      }
    }
  }
}
