/** The role guard placed before a route's validators and handler. */
module RoleGuard {

  /** The identity the token check attaches to the request (`req.user`). */
  datatype AuthUser = AuthUser(userId: string, role: string)

  datatype GuardReply =
    | Pass(user: AuthUser)
    | Deny(status: int, success: bool, message: string)

  const DenyMessage: string := "you don't have permission !"

  /** `verifyRole(permissions)`: call `next` with the request as it came when
      the user's role is in the list, otherwise answer 401. */
  function VerifyRole(permissions: seq<string>, user: AuthUser): (r: GuardReply)
    ensures r.Pass? <==> user.role in permissions
    ensures r.Pass? ==> r.user == user
    ensures r.Deny? ==> r.status == 401 && !r.success && r.message == DenyMessage
  {
    if user.role in permissions then Pass(user) else Deny(401, false, DenyMessage)
  }

  /** With no roles allowed, every user is turned away. */
  lemma EmptyPermissionsRejectAll(user: AuthUser)
    ensures VerifyRole([], user) == Deny(401, false, DenyMessage)
  {
  }

  /** The guard of the lead routes admits exactly the role `client`; an admin
      is turned away with 401, not 403. */
  lemma ClientOnlyGuard(user: AuthUser)
    ensures VerifyRole(["client"], user).Pass? <==> user.role == "client"
    ensures user.role == "admin" ==> VerifyRole(["client"], user).status == 401
  {
  }
}
