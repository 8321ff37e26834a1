/**
 * The landing page's call-to-action buttons, src/features/home/HeaderText.jsx.
 *
 * localStorage is a map passed in; the stored user is the value `JSON.parse`
 * gave for the stored text, or None when nothing (or "") is stored, which
 * the page parses as "{}". Parsing is not part of this model.
 */
module HeaderText {
  import opened Js
  import Forms
  import ApiClient

  /** `userData`: the parsed user, an empty object when none is stored. */
  function UserData(storedUser: Option<Value>): (v: Value)
    ensures storedUser.None? ==> v == Object(map[])
    ensures storedUser.Some? ==> v == storedUser.value
  {
    if storedUser.None? then Object(map[]) else storedUser.value
  }

  /**
   * `v == s` with JavaScript's loose equality against a string: a number or
   * boolean is compared as a number, an array or object through its string
   * form, undefined and null never equal a string.
   */
  predicate LooseEqualsString(v: Value, s: string)
    ensures v == Undefined || v == Null ==> !LooseEqualsString(v, s)
    ensures v.Str? ==> (LooseEqualsString(v, s) <==> v.s == s)
    ensures v.Num? && s != "" && AllDigits(s) ==> (LooseEqualsString(v, s) <==> v.n == DigitsValue(s))
    ensures v.Arr? && |v.items| == 1 && v.items[0].Str? ==> (LooseEqualsString(v, s) <==> v.items[0].s == s)
  {
    match v
    case Undefined => false
    case Null => false
    case Bool(b) => ToNumber(Str(s)) == Some(if b then 1 else 0)
    case Num(n) =>
      if s != "" && AllDigits(s) then
        NumberOfDigits(s);
        ToNumber(Str(s)) == Some(n)
      else ToNumber(Str(s)) == Some(n)
    case Str(t) => t == s
    case Arr(_) => Forms.StringOf(v) == s
    case Object(_) => Forms.StringOf(v) == s
  }

  /**
   * The primary button's link: "login" without a token; with one, the client
   * dashboard when the role loosely equals "client", else the employee
   * dashboard. With a token, reading `role` of a stored `null` throws
   * (None). Without one this link is computed, but the booking button's own
   * read of `role` still throws: `Render` is the page as a whole.
   */
  function PrimaryTarget(storage: map<string, string>, storedUser: Option<Value>): (target: Option<string>)
    ensures ApiClient.StoredToken(storage, ApiClient.AccessTokenKey).None? ==> target == Some("login")
    ensures ApiClient.StoredToken(storage, ApiClient.AccessTokenKey).Some? ==>
              (target.None? <==> UserData(storedUser) == Null)
    ensures ApiClient.StoredToken(storage, ApiClient.AccessTokenKey).Some? && UserData(storedUser) != Null ==>
              target == Some(if LooseEqualsString(Member(UserData(storedUser), "role"), "client")
                             then "userdashboard" else "employeedashboard")
  {
    if ApiClient.StoredToken(storage, ApiClient.AccessTokenKey).None? then Some("login")
    else if UserData(storedUser) == Null then None
    else if LooseEqualsString(Member(UserData(storedUser), "role"), "client") then Some("userdashboard")
    else Some("employeedashboard")
  }

  /**
   * The booking button is shown when the stored role is strictly "client",
   * with or without a token; None when reading `role` throws.
   */
  function ShowsBooking(storedUser: Option<Value>): (shown: Option<bool>)
    ensures shown.None? <==> UserData(storedUser) == Null
    ensures shown.Some? ==> (shown.value <==> Member(UserData(storedUser), "role") == Str("client"))
  {
    if UserData(storedUser) == Null then None
    else Some(Member(UserData(storedUser), "role") == Str("client"))
  }

  /** What the page shows: the primary button's link and whether the booking button appears. */
  datatype Buttons = Buttons(primary: string, booking: bool)

  /**
   * The page as a whole: None, no page at all, exactly when the stored user
   * is `null`, since the booking button reads its `role` whether or not
   * there is a token; otherwise both buttons as computed above.
   */
  function Render(storage: map<string, string>, storedUser: Option<Value>): (view: Option<Buttons>)
    ensures view.None? <==> UserData(storedUser) == Null
    ensures view.Some? ==> PrimaryTarget(storage, storedUser) == Some(view.value.primary)
    ensures view.Some? ==> ShowsBooking(storedUser) == Some(view.value.booking)
  {
    match ShowsBooking(storedUser)
    case None => None
    case Some(booking) => Some(Buttons(PrimaryTarget(storage, storedUser).value, booking))
  }

  /**
   * With no stored user the page falls back to `{}`: never a booking button;
   * the primary button leads to login without a token and to the employee
   * dashboard with one.
   */
  lemma NoUserNoBooking(storage: map<string, string>)
    ensures Render(storage, None) ==
              Some(Buttons(if ApiClient.StoredToken(storage, ApiClient.AccessTokenKey).None? then "login"
                           else "employeedashboard", false))
  {
    assert Member(Object(map[]), "role") == Undefined;
  }

  /** For a string role the loose and the strict check agree: the client both books and goes to its dashboard. */
  lemma StringRolesAgree(storage: map<string, string>, fields: map<string, Value>, role: string)
    requires ApiClient.StoredToken(storage, ApiClient.AccessTokenKey).Some?
    requires "role" in fields && fields["role"] == Str(role)
    ensures PrimaryTarget(storage, Some(Object(fields))) == Some("userdashboard")
            <==> ShowsBooking(Some(Object(fields))) == Some(true)
  {
  }

  /**
   * The two checks part ways on a role stored as the one-element array
   * ["client"]: the loose check sends the user to the client dashboard, the
   * strict one hides the booking button.
   */
  lemma ArrayRoleSplitsTheChecks(storage: map<string, string>)
    requires ApiClient.StoredToken(storage, ApiClient.AccessTokenKey).Some?
    ensures var user := Some(Object(map["role" := Arr([Str("client")])]));
            PrimaryTarget(storage, user) == Some("userdashboard") && ShowsBooking(user) == Some(false)
  {
    var items := [Str("client")];
    assert Forms.JoinPieces(items, Arr(items)) == ["client"];
    assert Forms.StringOf(Arr(items)) == "client";
  }
}
