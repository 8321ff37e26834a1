/**
 * The sign-up page, src/pages/RegisterPage.jsx: the form and its per-field
 * errors, the three checks handleSubmit makes before it dispatches
 * `registerUser`, the body it sends, and what the page does when the auth
 * store reports success or an error.
 *
 * localStorage is a map passed in and handed back; the dispatch is the
 * `Dispatched` outcome carrying the body. The map click that sets the
 * location is `SelectLocation`.
 */
module RegisterPage {
  import opened Js
  import Forms

  const EmailKey := "email"
  const RegisterFailed := "Registration failed."

  /** The point picked on the map, `{ latitude, longitude }`. */
  datatype Coords = Coords(latitude: Value, longitude: Value)

  /** Why handleSubmit stopped, in the order it checks. */
  datatype Guard = MissingPhone | MissingLocation | TermsNotAccepted

  datatype Submission = Stopped(guard: Guard) | Dispatched(body: Obj)

  /** The empty form: six text fields, all "". */
  function InitialForm(): (form: Obj)
    ensures form.Keys == {"full_name", "email", "phone", "password", "confirm_password", "location"}
    ensures forall k :: k in form ==> form[k] == Str("")
  {
    map["full_name" := Str(""), "email" := Str(""), "phone" := Str(""),
        "password" := Str(""), "confirm_password" := Str(""), "location" := Str("")]
  }

  /**
   * `{ ...fieldErrors, [name]: "" }`. Only an object has own properties to
   * spread here; the page never holds anything else but an object or what
   * `error.fields` brought.
   */
  function ClearError(errors: Value, name: string): (r: Value)
    ensures r.Object? && name in r.fields && r.fields[name] == Str("")
    ensures errors.Object? ==> r.fields.Keys == errors.fields.Keys + {name}
    ensures errors.Object? ==> forall k :: k in errors.fields && k != name ==> r.fields[k] == errors.fields[k]
  {
    var own := if errors.Object? then errors.fields else map[];
    Object(own[name := Str("")])
  }

  /**
   * `{ ...formData, ...roundedLatLng, role: userType }`: the form, then the
   * coordinates, then the role, each later key winning over an earlier one.
   */
  function Body(form: Obj, at: Coords, userType: string): (body: Obj)
    ensures body.Keys == form.Keys + {"latitude", "longitude", "role"}
    ensures body["latitude"] == at.latitude && body["longitude"] == at.longitude
    ensures body["role"] == Str(userType)
    ensures forall k :: k in form && k !in {"latitude", "longitude", "role"} ==> body[k] == form[k]
  {
    form["latitude" := at.latitude]["longitude" := at.longitude]["role" := Str(userType)]
  }

  /**
   * handleSubmit as a decision: no phone, then no location, then terms not
   * accepted, each stops it; otherwise it sends the body.
   */
  function Submit(form: Obj, latLng: Option<Coords>, termsAccepted: bool, userType: string): (s: Submission)
    ensures s == Stopped(MissingPhone) <==> !Truthy(Field(form, "phone"))
    ensures s == Stopped(MissingLocation) <==> Truthy(Field(form, "phone")) && latLng.None?
    ensures s == Stopped(TermsNotAccepted) <==> Truthy(Field(form, "phone")) && latLng.Some? && !termsAccepted
    ensures s.Dispatched? <==> Truthy(Field(form, "phone")) && latLng.Some? && termsAccepted
    ensures s.Dispatched? ==> s.body == Body(form, latLng.value, userType)
  {
    if !Truthy(Field(form, "phone")) then Stopped(MissingPhone)
    else if latLng.None? then Stopped(MissingLocation)
    else if !termsAccepted then Stopped(TermsNotAccepted)
    else Dispatched(Body(form, latLng.value, userType))
  }

  /** The storage after a submission: the body's email is written only when it is sent. */
  function StorageAfter(storage: map<string, string>, s: Submission): (after: map<string, string>)
    ensures s.Stopped? ==> after == storage
    ensures s.Dispatched? ==> after == storage[EmailKey := Forms.StringOf(Field(s.body, "email"))]
  {
    if s.Dispatched? then storage[EmailKey := Forms.StringOf(Field(s.body, "email"))] else storage
  }

  /** The email stored is the one typed: the spreads after the form never touch it. */
  lemma StoredEmailIsTyped(storage: map<string, string>, form: Obj, at: Coords, userType: string, email: string)
    requires Truthy(Field(form, "phone"))
    requires Field(form, "email") == Str(email)
    ensures var s := Submit(form, Some(at), true, userType);
            s.Dispatched? && StorageAfter(storage, s)[EmailKey] == email
            && Field(s.body, "email") == Str(email)
  {
    var s := Submit(form, Some(at), true, userType);
    assert "email" !in {"latitude", "longitude", "role"};
    assert s.body["email"] == form["email"];
  }

  /** A form field named like a later key is overridden: the role always is the chosen type. */
  lemma RoleCannotBeTyped(form: Obj, at: Coords, userType: string, typed: Value)
    ensures Body(form["role" := typed], at, userType)["role"] == Str(userType)
  {
  }

  /** What the page does when the auth store changes. */
  datatype Reaction =
    | NoReaction
      /** A success toast, then after two seconds /otpverify and a store reset. */
    | GoToOtpVerify
      /** fieldErrors replaced, and an error toast with this text. */
    | ShowError(fieldErrors: Value, message: Value)

  /** The effect on `[success, error]`: success wins; an error sets the fields and the message. */
  function OnAuthChange(success: bool, error: Value): (r: Reaction)
    ensures success ==> r == GoToOtpVerify
    ensures !success && !Truthy(error) ==> r == NoReaction
    ensures !success && Truthy(error) ==> r.ShowError? && Truthy(r.message)
    ensures r.ShowError? ==> r.message == Or(Member(error, "message"), Str(RegisterFailed))
    ensures r.ShowError? && Truthy(Member(error, "fields")) ==> r.fieldErrors == Member(error, "fields")
    ensures r.ShowError? && !Truthy(Member(error, "fields")) ==> r.fieldErrors == Object(map[])
  {
    if success then GoToOtpVerify
    else if Truthy(error) then
      ShowError(Or(Member(error, "fields"), Object(map[])), Or(Member(error, "message"), Str(RegisterFailed)))
    else NoReaction
  }

  class RegisterForm {
    var formData: Obj
    var latLng: Option<Coords>
    var termsAccepted: bool
    var userType: string
    var fieldErrors: Value

    constructor()
      ensures formData == InitialForm() && latLng == None && !termsAccepted
      ensures userType == "client" && fieldErrors == Object(map[])
    {
      formData := InitialForm();
      latLng := None;
      termsAccepted := false;
      userType := "client";
      fieldErrors := Object(map[]);
    }

    /** handleChange: the field takes the typed text and its error is cleared, nothing else. */
    method HandleChange(name: string, value: string)
      modifies this
      ensures formData == Forms.WithField(old(formData), name, Str(value))
      ensures fieldErrors == ClearError(old(fieldErrors), name)
      ensures latLng == old(latLng) && termsAccepted == old(termsAccepted) && userType == old(userType)
    {
      formData := formData[name := Str(value)];
      fieldErrors := ClearError(fieldErrors, name);
    }

    method SelectLocation(at: Coords)
      modifies this
      ensures latLng == Some(at)
      ensures formData == old(formData) && termsAccepted == old(termsAccepted)
      ensures userType == old(userType) && fieldErrors == old(fieldErrors)
    {
      latLng := Some(at);
    }

    method SetTermsAccepted(accepted: bool)
      modifies this
      ensures termsAccepted == accepted
      ensures formData == old(formData) && latLng == old(latLng)
      ensures userType == old(userType) && fieldErrors == old(fieldErrors)
    {
      termsAccepted := accepted;
    }

    method SetUserType(t: string)
      modifies this
      ensures userType == t
      ensures formData == old(formData) && latLng == old(latLng)
      ensures termsAccepted == old(termsAccepted) && fieldErrors == old(fieldErrors)
    {
      userType := t;
    }

    /**
     * handleSubmit: the checks in order, each returning early; then the
     * email is stored and the body sent. The page state is not changed.
     */
    method HandleSubmit(storage: map<string, string>) returns (s: Submission, after: map<string, string>)
      ensures s == Submit(formData, latLng, termsAccepted, userType)
      ensures after == StorageAfter(storage, s)
    {
      after := storage;
      if !Truthy(Field(formData, "phone")) {
        return Stopped(MissingPhone), after;
      }
      if latLng.None? {
        return Stopped(MissingLocation), after;
      }
      if !termsAccepted {
        return Stopped(TermsNotAccepted), after;
      }
      var body := formData;
      body := body["latitude" := latLng.value.latitude];
      body := body["longitude" := latLng.value.longitude];
      body := body["role" := Str(userType)];
      after := after[EmailKey := Forms.StringOf(Field(body, "email"))];
      s := Dispatched(body);
    }

    /** The effect's state change: on an error, the field errors the server named. */
    method ReactToAuth(success: bool, error: Value) returns (r: Reaction)
      modifies this
      ensures r == OnAuthChange(success, error)
      ensures r.ShowError? ==> fieldErrors == r.fieldErrors
      ensures !r.ShowError? ==> fieldErrors == old(fieldErrors)
      ensures formData == old(formData) && latLng == old(latLng)
      ensures termsAccepted == old(termsAccepted) && userType == old(userType)
    {
      r := OnAuthChange(success, error);
      if r.ShowError? {
        fieldErrors := r.fieldErrors;
      }
    }
  }

  /**
   * A field typed after a server error has its own error cleared while the
   * others the server named stay on screen.
   */
  lemma TypingClearsOnlyThatError(error: Value, name: string, other: string)
    requires Member(error, "fields").Object?
    requires other != name && other in Member(error, "fields").fields
    ensures var r := OnAuthChange(false, error);
            var cleared := ClearError(r.fieldErrors, name);
            && cleared.fields[name] == Str("")
            && cleared.fields[other] == Member(error, "fields").fields[other]
  {
  }
}
