/**
 * The sign-in page, src/pages/LoginPage.jsx: the submit guard, the body it
 * sends to `loginUser`, and the effect that reacts to the auth store.
 *
 * The page state is a class with the two typed strings. The dispatch is the
 * `Requested` outcome carrying the body; the effect's navigation, toast and
 * store reset are the fields of a `Reaction`.
 */
module LoginPage {
  import opened Js

  const UserDashboard := "/userdashboard"
  const EmployeeDashboard := "/employeedashboard"

  /** What handleSubmit did: nothing (a toast asks for both fields), or `loginUser({ email, password })`. */
  datatype Submission = MissingCredentials | Requested(email: string, password: string)

  function Submit(email: string, password: string): (s: Submission)
    ensures s == MissingCredentials <==> email == "" || password == ""
    ensures s.Requested? ==> s.email == email && s.password == password
  {
    if email == "" || password == "" then MissingCredentials else Requested(email, password)
  }

  /**
   * Where the page goes two seconds after a successful login: the client
   * dashboard for role "client", the employee dashboard for every other
   * role. Reading `role` of a null or undefined user throws, and the timer
   * callback stops before navigating (None).
   */
  function RedirectAfterLogin(user: Value): (target: Option<string>)
    ensures target.None? <==> user == Undefined || user == Null
    ensures target == Some(UserDashboard) <==> Member(user, "role") == Str("client")
  {
    if user == Undefined || user == Null then None
    else if Member(user, "role") == Str("client") then Some(UserDashboard)
    else Some(EmployeeDashboard)
  }

  /** What the effect on `[success, error, user]` does. */
  datatype Reaction = Reaction(
    /** Whether the two-second redirect timer is started, and where it goes. */
    scheduled: bool,
    redirect: Option<string>,
    /** An error toast with this text, and an immediate store reset. */
    errorMessage: Option<Value>)

  /**
   * Success schedules the redirect (and, after it, a store reset); an error
   * with a message shows it and resets the store at once. The two checks are
   * independent: both can fire.
   */
  function OnAuthChange(success: bool, error: Value, user: Value): (r: Reaction)
    ensures r.scheduled == success
    ensures success ==> r.redirect == RedirectAfterLogin(user)
    ensures !success ==> r.redirect.None?
    ensures r.errorMessage.Some? <==> Truthy(Member(error, "message"))
    ensures r.errorMessage.Some? ==> r.errorMessage.value == Member(error, "message")
  {
    Reaction(
      scheduled := success,
      redirect := if success then RedirectAfterLogin(user) else None,
      errorMessage := if Truthy(Member(error, "message")) then Some(Member(error, "message")) else None)
  }

  /** A client and an employee who log in land on different dashboards. */
  lemma RolesLandApart(client: map<string, Value>, other: map<string, Value>)
    requires "role" in client && client["role"] == Str("client")
    requires "role" !in other || other["role"] != Str("client")
    ensures OnAuthChange(true, Null, Object(client)).redirect == Some(UserDashboard)
    ensures OnAuthChange(true, Null, Object(other)).redirect == Some(EmployeeDashboard)
  {
  }

  class LoginForm {
    var email: string
    var password: string

    constructor()
      ensures email == "" && password == ""
    {
      email := "";
      password := "";
    }

    method SetEmail(value: string)
      modifies this
      ensures email == value && password == old(password)
    {
      email := value;
    }

    method SetPassword(value: string)
      modifies this
      ensures password == value && email == old(email)
    {
      password := value;
    }

    /** handleSubmit: the guard returns early; otherwise exactly the two fields are sent. */
    method HandleSubmit() returns (s: Submission)
      ensures s == Submit(email, password)
    {
      if email == "" || password == "" {
        return MissingCredentials;
      }
      s := Requested(email, password);
    }
  }
}
