/**
 * The route guard, src/routes/ProtectedRoute.jsx: who sees a protected page.
 *
 * The stored user is the value `JSON.parse` gave for the stored text, or
 * None when nothing (or "") is stored; parsing is not part of this model.
 * `allowedRoles` is the list a route declares, None when it declares none.
 */
module ProtectedRoute {
  import opened Js

  datatype Access = RedirectToLogin | RedirectToHome | ShowChildren

  /** `allowedRoles.includes(user.role)`: strict equality with one of the listed strings. */
  predicate RoleListed(allowedRoles: seq<string>, user: Value)
    ensures RoleListed(allowedRoles, user) <==> Member(user, "role").Str? && Member(user, "role").s in allowedRoles
    ensures allowedRoles == [] ==> !RoleListed(allowedRoles, user)
  {
    exists i :: 0 <= i < |allowedRoles| && Member(user, "role") == Str(allowedRoles[i])
  }

  /**
   * No logged-in user goes to /login, whatever the roles; a user whose role
   * is not listed goes to "/"; a route without a list admits every user.
   */
  function Decide(storedUser: Option<Value>, allowedRoles: Option<seq<string>>): (a: Access)
    ensures a == RedirectToLogin <==> storedUser.None? || !Truthy(storedUser.value)
    ensures a == RedirectToHome <==>
              storedUser.Some? && Truthy(storedUser.value) && allowedRoles.Some?
              && !RoleListed(allowedRoles.value, storedUser.value)
    ensures a == ShowChildren <==>
              storedUser.Some? && Truthy(storedUser.value)
              && (allowedRoles.None? || RoleListed(allowedRoles.value, storedUser.value))
  {
    if storedUser.None? || !Truthy(storedUser.value) then RedirectToLogin
    else if allowedRoles.Some? && !RoleListed(allowedRoles.value, storedUser.value) then RedirectToHome
    else ShowChildren
  }

  /** Adding roles to a route's list never locks out a user it admitted. */
  lemma MoreRolesAdmitMore(storedUser: Option<Value>, roles: seq<string>, more: seq<string>)
    requires Decide(storedUser, Some(roles)) == ShowChildren
    ensures Decide(storedUser, Some(roles + more)) == ShowChildren
  {
    var i :| 0 <= i < |roles| && Member(storedUser.value, "role") == Str(roles[i]);
    assert (roles + more)[i] == roles[i];
  }

  /** A user without a role only sees routes that declare no list. */
  lemma RolelessUserOnlyOnOpenRoutes(fields: map<string, Value>, roles: seq<string>)
    requires "role" !in fields
    ensures Decide(Some(Object(fields)), Some(roles)) == RedirectToHome
    ensures Decide(Some(Object(fields)), None) == ShowChildren
  {
  }
}
