/** The session guards of lib/auth-helpers.ts. The session that `auth()` resolves is an input;
    a thrown error is an `Error` result carrying the message. */
module AuthHelpers {
  import opened Collections
  import opened Schema

  datatype SessionUser = SessionUser(id: string, role: Role)

  /** A session as `auth()` returns it; its `user` may be missing. */
  datatype Session = Session(user: Option<SessionUser>)

  const AuthenticationRequired := "Authentication required"
  const InsufficientPermissions := "Insufficient permissions"

  predicate Authenticated(session: Option<Session>)
  {
    session.Some? && session.value.user.Some?
  }

  /** `requireAuth`: the session itself when it has a user, the error otherwise. */
  function RequireAuth(session: Option<Session>): (r: Result<Session>)
    ensures r.Ok? <==> Authenticated(session)
    ensures r.Ok? ==> Some(r.value) == session
    ensures r.Error? ==> r.message == AuthenticationRequired
  {
    if session.None? || session.value.user.None? then Error(AuthenticationRequired)
    else Ok(session.value)
  }

  /** `requireRole`: authentication first, then membership of the user's role. */
  function RequireRole(session: Option<Session>, allowedRoles: seq<Role>): (r: Result<Session>)
    ensures r.Ok? <==> Authenticated(session) && session.value.user.value.role in allowedRoles
    ensures r.Ok? ==> Some(r.value) == session
    ensures r.Error? ==>
      r.message == (if Authenticated(session) then InsufficientPermissions else AuthenticationRequired)
  {
    match RequireAuth(session)
    case Error(message) => Error(message)
    case Ok(s) =>
      if s.user.value.role !in allowedRoles then Error(InsufficientPermissions) else Ok(s)
  }

  const PaidRoles: seq<Role> := [PaidUser, Admin]
  const AdminRoles: seq<Role> := [Admin]

  function RequirePaidUser(session: Option<Session>): (r: Result<Session>)
    ensures r.Ok? <==> Authenticated(session) && session.value.user.value.role != User
  {
    assert forall role: Role :: role in PaidRoles <==> role != User;
    RequireRole(session, PaidRoles)
  }

  function RequireAdmin(session: Option<Session>): (r: Result<Session>)
    ensures r.Ok? <==> Authenticated(session) && session.value.user.value.role == Admin
  {
    RequireRole(session, AdminRoles)
  }

  function IsPaidUser(role: Role): (b: bool)
    ensures b <==> role == PaidUser || role == Admin
  {
    role == PaidUser || role == Admin
  }

  function IsAdmin(role: Role): (b: bool)
    ensures b <==> role == Admin
  {
    role == Admin
  }

  /** Every admin is a paid user, and only admins pass the admin guard. */
  lemma AdminIsPaidUser(role: Role)
    ensures IsAdmin(role) ==> IsPaidUser(role)
    ensures IsPaidUser(role) && !IsAdmin(role) ==> role == PaidUser
  {
  }

  /** The role predicate and the paid-user guard agree on every authenticated session. */
  lemma PaidGuardAgrees(session: Option<Session>)
    requires Authenticated(session)
    ensures RequirePaidUser(session).Ok? <==> IsPaidUser(session.value.user.value.role)
    ensures RequireAdmin(session).Ok? <==> IsAdmin(session.value.user.value.role)
  {
  }

  /** A session that passes the admin guard passes the paid-user guard. */
  lemma AdminPassesPaidGuard(session: Option<Session>)
    ensures RequireAdmin(session).Ok? ==> RequirePaidUser(session) == RequireAdmin(session)
  {
  }

  /** No role list admits a session without a user, and the error is the authentication one. */
  lemma UnauthenticatedNeverAdmitted(session: Option<Session>, allowedRoles: seq<Role>)
    requires !Authenticated(session)
    ensures RequireRole(session, allowedRoles) == Error(AuthenticationRequired)
  {
  }
}
