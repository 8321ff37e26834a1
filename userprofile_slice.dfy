/**
 * The user profile slice of src/features/dashboard/userprofileSlice.js: one
 * profile record (the signed-in client's, or an employee fetched by id) and
 * the request flags.
 */
module UserProfileSlice {
  import opened Js

  const FetchFallback := "Faild to fetch  userprofile"
  const UpdateFallback := "Failed to update profile."
  const FetchByIdFallback := "Failed to fetch user by ID."

  /** The two thunks that load a profile record. */
  datatype Fetch = FetchUserProfile | FetchEmployeeById

  /**
   * The value a fetch thunk rejects with: the server's `message`, or its
   * own fixed text when the body (undefined without an answer) has none.
   */
  function FetchRejection(which: Fetch, data: Value): (payload: Value)
    ensures Truthy(payload)
    ensures Truthy(Member(data, "message")) ==> payload == Member(data, "message")
    ensures !Truthy(Member(data, "message")) ==>
              payload == Str(if which == FetchUserProfile then FetchFallback else FetchByIdFallback)
  {
    MessageOr(data, if which == FetchUserProfile then FetchFallback else FetchByIdFallback)
  }

  datatype UserProfileState = UserProfileState(userprofile: Value, loading: bool, error: Value, success: bool)

  const Initial := UserProfileState(Null, false, Null, false)

  class UserProfileStore {
    var userprofile: Value
    var loading: bool
    var error: Value
    var success: bool

    function State(): UserProfileState
      reads this
    {
      UserProfileState(userprofile, loading, error, success)
    }

    constructor ()
      ensures State() == Initial
    {
      userprofile := Null;
      loading := false;
      error := Null;
      success := false;
    }

    /** resetProfileState: flags cleared, the profile kept. */
    method ResetProfileState()
      modifies this
      ensures State() == Initial.(userprofile := old(userprofile))
    {
      loading := false;
      error := Null;
      success := false;
    }

    /** fetchUserProfile.pending leaves a previous error in place. */
    method FetchPending()
      modifies this
      ensures State() == old(State()).(loading := true)
    {
      loading := true;
    }

    /** fetchEmployeeByIDProfile.pending clears the previous error. */
    method FetchByIdPending()
      modifies this
      ensures State() == old(State()).(loading := true, error := Null)
    {
      loading := true;
      error := Null;
    }

    method UpdatePending()
      modifies this
      ensures State() == old(State()).(loading := true, success := false)
    {
      loading := true;
      success := false;
    }

    /** The fulfilled case of fetchUserProfile and of fetchEmployeeByIDProfile. */
    method FetchFulfilled(payload: Value)
      modifies this
      ensures State() == old(State()).(loading := false, userprofile := payload)
    {
      loading := false;
      userprofile := payload;
    }

    method UpdateFulfilled(payload: Value)
      modifies this
      ensures State() == old(State()).(loading := false, success := true, userprofile := payload)
    {
      loading := false;
      success := true;
      userprofile := payload;
    }

    /**
     * The rejected case of fetchUserProfile and of fetchEmployeeByIDProfile,
     * with the payload the thunk's catch block builds from the server's body.
     */
    method FetchRejected(which: Fetch, data: Value)
      modifies this
      ensures State() == old(State()).(loading := false, error := FetchRejection(which, data))
      ensures Truthy(error)
    {
      loading := false;
      error := FetchRejection(which, data);
    }

    /** updateUserProfile.rejected, with the payload its catch block builds. */
    method UpdateRejected(data: Value)
      modifies this
      ensures State() == old(State()).(loading := false, error := MessageOr(data, UpdateFallback), success := false)
      ensures Truthy(error)
    {
      loading := false;
      error := MessageOr(data, UpdateFallback);
      success := false;
    }

    /**
     * A whole update round trip: pending, then the outcome. `success` ends
     * true exactly when the update was fulfilled, and loading always ends
     * false. A failure (`errorBody`, the server's body or undefined) leaves
     * the server's message or the fixed text as the error.
     */
    method Update(outcome: Option<Value>, errorBody: Value)
      modifies this
      ensures !loading
      ensures success <==> outcome.Some?
      ensures outcome.Some? ==> userprofile == outcome.value && error == old(error)
      ensures outcome.None? ==> userprofile == old(userprofile) && error == MessageOr(errorBody, UpdateFallback)
      ensures outcome.None? ==> Truthy(error)
    {
      UpdatePending();
      match outcome {
        case Some(payload) => UpdateFulfilled(payload);
        case None => UpdateRejected(errorBody);
      }
    }
  }
}
