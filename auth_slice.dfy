/**
 * The authentication slice of src/features/authentication/auth/authSlice.js:
 * the signed-in user, the request flags, the OTP state, the browser storage
 * keys the slice writes and removes, and the messages its thunks reject with.
 *
 * A thunk's failure is described by `data`, the server's error body
 * (`error.response?.data`), `Undefined` when no answer arrived. A rejection
 * value of `Undefined` stands for a catch block that itself throws: the thunk
 * then rejects with that TypeError and the rejected action has no payload.
 */
module AuthSlice {
  import opened Js

  const RegisterFallback := "Registration failed."
  const UnexpectedFallback := "Something went wrong. Please try again."
  const VerifyFallback := "Verification failed."
  const NetworkMessage := "Network error. Please try again."
  const LoginFallback := "Invalid email or password."
  const VerifiedMessage := "Your account has been verified successfully."
  const ResentMessage := "A new OTP has been sent to your email."

  const AccessTokenKey := "accessToken"
  const RefreshTokenKey := "refreshToken"
  const UserKey := "user"
  const EmailKey := "email"

  // ---------------------------------------------------------------------------
  // registerUser

  /**
   * `order` lists the keys of an object in the order `Object.keys` reports
   * them (integer-like keys ascending, then the others as inserted): each
   * key exactly once.
   */
  predicate KeyOrder(order: seq<string>, fields: map<string, Value>) {
    (forall i :: 0 <= i < |order| ==> order[i] in fields) &&
    (forall k :: k in fields ==> k in order) &&
    (forall i, j :: 0 <= i < j < |order| ==> order[i] != order[j])
  }

  /**
   * `e[Object.keys(e)[0]]`: the first entry of an object, the first character
   * of a string, the first element of an array, and `undefined` when there is
   * no first key (an empty object or array, a number, a boolean).
   */
  function FirstEntry(e: Value, order: seq<string>): (r: Value)
    requires e.Object? ==> KeyOrder(order, e.fields)
    ensures e.Object? && order != [] ==> r == e.fields[order[0]]
    ensures e.Str? && e.s != "" ==> r == Str([e.s[0]])
    ensures e.Arr? && e.items != [] ==> r == e.items[0]
    ensures !e.Object? && !e.Str? && !e.Arr? ==> r == Undefined
  {
    match e
    case Object(fields) => if order != [] then fields[order[0]] else Undefined
    case Str(s) => if s != "" then Str([s[0]]) else Undefined
    case Arr(items) => if items != [] then items[0] else Undefined
    case _ => Undefined
  }

  /**
   * `v[0]`: None when `v` is null or undefined, where the read throws;
   * otherwise the same value `v?.[0]` gives.
   */
  function Index0(v: Value): (r: Option<Value>)
    ensures r.None? <==> v == Undefined || v == Null
    ensures r.Some? ==> r.value == At(v, 0)
    ensures v.Arr? && v.items != [] ==> r == Some(v.items[0])
    ensures v.Str? && v.s != "" ==> r == Some(Str([v.s[0]]))
  {
    match v
    case Undefined => None
    case Null => None
    case _ => Some(At(v, 0))
  }

  /**
   * The value registerUser rejects with, as written: with a truthy `error`
   * in the body, `{message, fields}` where message is the first message of
   * the first entry of `error`, else the body's `message`, else a fixed text;
   * otherwise `{message}` from the body's `message` or a fixed text.
   */
  function RegisterRejection(data: Value, order: seq<string>): (payload: Value)
    requires Member(data, "error").Object? ==> KeyOrder(order, Member(data, "error").fields)
    ensures !Truthy(Member(data, "error")) ==>
              payload == Object(map["message" := Or(Member(data, "message"), Str(UnexpectedFallback))])
    ensures Truthy(Member(data, "error")) ==>
              var entry := FirstEntry(Member(data, "error"), order);
              (payload == Undefined <==> entry == Undefined || entry == Null)
    ensures Truthy(Member(data, "error")) && payload != Undefined ==>
              payload.Object? && payload.fields.Keys == {"message", "fields"} &&
              payload.fields["fields"] == Member(data, "error") && Truthy(payload.fields["message"]) &&
              payload.fields["message"] ==
                Or(At(FirstEntry(Member(data, "error"), order), 0), Or(Member(data, "message"), Str(RegisterFallback)))
  {
    var error := Member(data, "error");
    if Truthy(error) then
      match Index0(FirstEntry(error, order))
      case None => Undefined
      case Some(firstMessage) =>
        Object(map["message" := Or(firstMessage, Or(Member(data, "message"), Str(RegisterFallback))),
                   "fields" := error])
    else
      Object(map["message" := Or(Member(data, "message"), Str(UnexpectedFallback))])
  }

  /**
   * The usual error body of the backend, `{error: {field: [message, ...], ...}}`,
   * gives the first field's first message and all field errors.
   */
  lemma RegisterFieldErrors(data: Value, order: seq<string>, items: seq<Value>)
    requires Member(data, "error").Object? && KeyOrder(order, Member(data, "error").fields)
    requires order != [] && Member(data, "error").fields[order[0]] == Arr(items)
    requires items != [] && Truthy(items[0])
    ensures RegisterRejection(data, order) == Object(map["message" := items[0], "fields" := Member(data, "error")])
  {
  }

  /** A body whose `error` is a plain string yields only that string's first character. */
  lemma StringErrorGivesFirstCharacter(text: string)
    requires text != ""
    ensures var data := Object(map["error" := Str(text)]);
            RegisterRejection(data, []) == Object(map["message" := Str([text[0]]), "fields" := Str(text)])
  {
    var data := Object(map["error" := Str(text)]);
    assert Member(data, "error") == Str(text);
  }

  /** A body whose `error` is an empty object makes the catch block throw: no payload at all. */
  lemma EmptyErrorObjectThrows()
    ensures RegisterRejection(Object(map["error" := Object(map[])]), []) == Undefined
  {
    var data := Object(map["error" := Object(map[])]);
    assert Member(data, "error") == Object(map[]);
  }

  /**
   * The rejection registerUser evidently means to produce: a string `error`
   * is the message itself, an `error` with no first message falls back to
   * the body's `message`, and the catch block never throws.
   */
  function RegisterRejectionIntended(data: Value, order: seq<string>): (payload: Value)
    requires Member(data, "error").Object? ==> KeyOrder(order, Member(data, "error").fields)
    ensures payload.Object? && "message" in payload.fields && Truthy(payload.fields["message"])
    ensures Member(data, "error").Str? && Truthy(Member(data, "error")) ==>
              payload == Object(map["message" := Member(data, "error"), "fields" := Member(data, "error")])
    ensures !Member(data, "error").Str? && RegisterRejection(data, order) != Undefined ==>
              payload == RegisterRejection(data, order)
  {
    var error := Member(data, "error");
    if Truthy(error) then
      var firstMessage :=
        if error.Str? then error
        else match Index0(FirstEntry(error, order)) case None => Undefined case Some(m) => m;
      Object(map["message" := Or(firstMessage, Or(Member(data, "message"), Str(RegisterFallback))),
                 "fields" := error])
    else
      Object(map["message" := Or(Member(data, "message"), Str(UnexpectedFallback))])
  }

  // ---------------------------------------------------------------------------
  // verifyOtp, resendOtp, loginUser

  /**
   * verifyOtp: with a body, `non_field_errors?.[0]` (the first entry of a
   * list, the first character of a string) or a fixed text; without a body,
   * a network message.
   */
  function VerifyOtpRejection(data: Value): (payload: Value)
    ensures payload.Object? && payload.fields.Keys == {"message"} && Truthy(payload.fields["message"])
    ensures !Truthy(data) ==> payload.fields["message"] == Str(NetworkMessage)
    ensures Truthy(data) && Truthy(At(Member(data, "non_field_errors"), 0)) ==>
              payload.fields["message"] == At(Member(data, "non_field_errors"), 0)
    ensures Truthy(data) && !Truthy(At(Member(data, "non_field_errors"), 0)) ==>
              payload.fields["message"] == Str(VerifyFallback)
  {
    var invalidOtpMessage := Or(At(Member(data, "non_field_errors"), 0), Str(VerifyFallback));
    if Truthy(data) then Object(map["message" := invalidOtpMessage])
    else Object(map["message" := Str(NetworkMessage)])
  }

  /** resendOtp: the body itself, or `{detail: network message}` without one. */
  function ResendOtpRejection(data: Value): (payload: Value)
    ensures Truthy(payload)
    ensures Truthy(data) ==> payload == data
    ensures !Truthy(data) ==> payload == Object(map["detail" := Str(NetworkMessage)])
  {
    if Truthy(data) then data else Object(map["detail" := Str(NetworkMessage)])
  }

  /** loginUser: `{message}` from non_field_errors[0], detail, message, or a fixed text, in that order. */
  function LoginRejection(data: Value): (payload: Value)
    ensures payload.Object? && payload.fields.Keys == {"message"} && Truthy(payload.fields["message"])
    ensures var m := payload.fields["message"];
            var first := At(Member(data, "non_field_errors"), 0);
            && (Truthy(first) ==> m == first)
            && (!Truthy(first) && Truthy(Member(data, "detail")) ==> m == Member(data, "detail"))
            && (!Truthy(first) && !Truthy(Member(data, "detail")) && Truthy(Member(data, "message")) ==>
                  m == Member(data, "message"))
            && (!Truthy(first) && !Truthy(Member(data, "detail")) && !Truthy(Member(data, "message")) ==>
                  m == Str(LoginFallback))
  {
    var msg := Or(At(Member(data, "non_field_errors"), 0),
                  Or(Member(data, "detail"), Or(Member(data, "message"), Str(LoginFallback))));
    Object(map["message" := msg])
  }

  /** A login that got no answer reports the fixed text. */
  lemma LoginWithoutAnswer()
    ensures LoginRejection(Undefined) == Object(map["message" := Str(LoginFallback)])
  {
    assert At(Member(Undefined, "non_field_errors"), 0) == Undefined;
  }

  /**
   * `non_field_errors?.[0]` indexes whatever the body holds: a plain string
   * there yields only its first character, in verifyOtp and in loginUser alike.
   */
  lemma StringNonFieldErrorsGiveFirstCharacter(text: string)
    requires text != ""
    ensures var data := Object(map["non_field_errors" := Str(text)]);
            && VerifyOtpRejection(data) == Object(map["message" := Str([text[0]])])
            && LoginRejection(data) == Object(map["message" := Str([text[0]])])
  {
    var data := Object(map["non_field_errors" := Str(text)]);
    assert Member(data, "non_field_errors") == Str(text);
  }

  // ---------------------------------------------------------------------------
  // The slice state and its reducers

  datatype AuthState = AuthState(
    user: Value,
    loading: bool,
    error: Value,
    success: bool,
    otpVerified: bool,
    otpMessage: Value)

  const Initial := AuthState(Null, false, Null, false, false, Null)

  class AuthStore {
    var user: Value
    var loading: bool
    var error: Value
    var success: bool
    var otpVerified: bool
    var otpMessage: Value
    /** `localStorage`, which `logout` and `loginUser.fulfilled` write. */
    var storage: map<string, string>

    function State(): AuthState
      reads this
    {
      AuthState(user, loading, error, success, otpVerified, otpMessage)
    }

    constructor (storage: map<string, string>)
      ensures State() == Initial && this.storage == storage
    {
      user := Null;
      loading := false;
      error := Null;
      success := false;
      otpVerified := false;
      otpMessage := Null;
      this.storage := storage;
    }

    /** resetAuthState: flags and OTP state cleared, the user kept. */
    method ResetAuthState()
      modifies this
      ensures State() == Initial.(user := old(user))
      ensures storage == old(storage)
    {
      loading := false;
      error := Null;
      success := false;
      otpVerified := false;
      otpMessage := Null;
    }

    /** logout: the whole state reset and the four session keys removed from storage. */
    method Logout()
      modifies this
      ensures State() == Initial
      ensures storage == old(storage) - {AccessTokenKey, RefreshTokenKey, UserKey, EmailKey}
    {
      user := Null;
      loading := false;
      error := Null;
      success := false;
      otpVerified := false;
      otpMessage := Null;
      storage := storage - {AccessTokenKey, RefreshTokenKey, UserKey, EmailKey};
    }

    /** The pending case of registerUser, verifyOtp and resendOtp. */
    method Pending()
      modifies this
      ensures State() == old(State()).(loading := true, error := Null)
      ensures storage == old(storage)
    {
      loading := true;
      error := Null;
    }

    /** loginUser.pending also clears `success`. */
    method LoginPending()
      modifies this
      ensures State() == old(State()).(loading := true, error := Null, success := false)
      ensures storage == old(storage)
    {
      loading := true;
      error := Null;
      success := false;
    }

    /** The rejected case of registerUser, verifyOtp and resendOtp. */
    method Rejected(payload: Value)
      modifies this
      ensures State() == old(State()).(loading := false, error := payload)
      ensures storage == old(storage)
    {
      loading := false;
      error := payload;
    }

    method LoginRejected(payload: Value)
      modifies this
      ensures State() == old(State()).(loading := false, error := payload, success := false)
      ensures storage == old(storage)
    {
      loading := false;
      error := payload;
      success := false;
    }

    method RegisterFulfilled(payload: Value)
      modifies this
      ensures State() == old(State()).(loading := false, user := payload, success := true)
      ensures storage == old(storage)
    {
      loading := false;
      user := payload;
      success := true;
    }

    /**
     * verifyOtp.fulfilled: verified, with the server's message or a default
     * one. A null or undefined payload makes `action.payload.message` throw
     * (`ok` false), and the store stays as it was.
     */
    method VerifyFulfilled(payload: Value) returns (ok: bool)
      modifies this
      ensures ok <==> payload != Undefined && payload != Null
      ensures ok ==> State() == old(State()).(loading := false, otpVerified := true,
                                              otpMessage := Or(Member(payload, "message"), Str(VerifiedMessage)))
      ensures ok ==> Truthy(otpMessage)
      ensures !ok ==> State() == old(State())
      ensures storage == old(storage)
    {
      if payload == Undefined || payload == Null {
        return false;
      }
      loading := false;
      otpVerified := true;
      otpMessage := Or(Member(payload, "message"), Str(VerifiedMessage));
      return true;
    }

    /** resendOtp.fulfilled: the same read of `action.payload.message`, and the same throw. */
    method ResendFulfilled(payload: Value) returns (ok: bool)
      modifies this
      ensures ok <==> payload != Undefined && payload != Null
      ensures ok ==> State() == old(State()).(loading := false,
                                              otpMessage := Or(Member(payload, "message"), Str(ResentMessage)))
      ensures ok ==> Truthy(otpMessage)
      ensures !ok ==> State() == old(State())
      ensures storage == old(storage)
    {
      if payload == Undefined || payload == Null {
        return false;
      }
      loading := false;
      otpMessage := Or(Member(payload, "message"), Str(ResentMessage));
      return true;
    }

    /**
     * loginUser.fulfilled: the payload's user becomes the user and both tokens
     * and the serialised user (`userJson`, the `JSON.stringify` of it) are
     * stored.
     */
    method LoginFulfilled(payloadUser: Value, access: string, refresh: string, userJson: string)
      modifies this
      ensures State() == old(State()).(loading := false, user := payloadUser, success := true)
      ensures storage == old(storage)[AccessTokenKey := access][RefreshTokenKey := refresh][UserKey := userJson]
    {
      loading := false;
      user := payloadUser;
      success := true;
      storage := storage[AccessTokenKey := access];
      storage := storage[RefreshTokenKey := refresh];
      storage := storage[UserKey := userJson];
    }
  }
}
