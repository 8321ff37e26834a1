/**
 * The booking slice of src/features/booking/bookingSlice.js: the store
 * fields for nearby employees, the booking being created and the current
 * user's (or employee's) bookings, the reducers that update them, and the
 * messages the thunks reject with.
 *
 * A booking is a plain object (`Obj`); bookings are matched on their
 * `book_id` property with JavaScript's strict equality on primitive values.
 * A thunk's failure is described by `data`, the server's error body
 * (`error.response?.data`), which is `Undefined` when no answer arrived.
 */
module BookingSlice {
  import opened Js

  // ---------------------------------------------------------------------------
  // Rejection values of the thunks

  const NearbyFallback := "Failed to fetch employee nearby list"

  /** fetchEmployeeNearbyLists: the body's `message`, else a fixed text. */
  function NearbyRejection(data: Value): (msg: Value)
    ensures Truthy(msg)
    ensures Truthy(Member(data, "message")) ==> msg == Member(data, "message")
    ensures !Truthy(Member(data, "message")) ==> msg == Str("Failed to fetch employee nearby list")
  {
    MessageOr(data, NearbyFallback)
  }

  /**
   * bookingCreatetionByUser: `{error: m}` where m is the first truthy of
   * `booking_date?.[0]`, the body's `error`, and a fixed text.
   */
  function CreateBookingError(data: Value): (payload: Value)
    ensures payload.Object? && payload.fields.Keys == {"error"} && Truthy(payload.fields["error"])
    ensures var dateMessage := At(Member(data, "booking_date"), 0);
            && (Truthy(dateMessage) ==> payload.fields["error"] == dateMessage)
            && (!Truthy(dateMessage) && Truthy(Member(data, "error")) ==>
                  payload.fields["error"] == Member(data, "error"))
            && (!Truthy(dateMessage) && !Truthy(Member(data, "error")) ==>
                  payload.fields["error"] == Str("Failed to create booking"))
  {
    var message := Or(At(Member(data, "booking_date"), 0),
                      Or(Member(data, "error"), Str("Failed to create booking")));
    Object(map["error" := message])
  }

  /**
   * `booking_date?.[0]` indexes whatever the body holds: a plain string there
   * yields only its first character, ahead of the body's own `error`.
   */
  lemma StringDateErrorGivesFirstCharacter(text: string, other: Value)
    requires text != ""
    ensures CreateBookingError(Object(map["booking_date" := Str(text), "error" := other]))
            == Object(map["error" := Str([text[0]])])
  {
    var data := Object(map["booking_date" := Str(text), "error" := other]);
    assert Member(data, "booking_date") == Str(text);
  }

  /** fetchUserBookings and fetchEmployeeBookings: the body's `error`, else a fixed text. */
  function FetchBookingsError(data: Value): (msg: Value)
    ensures Truthy(msg)
    ensures Truthy(Member(data, "error")) ==> msg == Member(data, "error")
    ensures !Truthy(Member(data, "error")) ==> msg == Str("Failed to fetch bookings")
  {
    Or(Member(data, "error"), Str("Failed to fetch bookings"))
  }

  /** updateBookingStatus: the whole error body, else `{error: "Something went wrong"}`. */
  function UpdateStatusError(data: Value): (payload: Value)
    ensures Truthy(payload)
    ensures Truthy(data) ==> payload == data
    ensures !Truthy(data) ==> payload == Object(map["error" := Str("Something went wrong")])
  {
    Or(data, Object(map["error" := Str("Something went wrong")]))
  }

  // ---------------------------------------------------------------------------
  // Updates of the booking list by `book_id`

  /** The `book_id` of a booking (undefined when it has none). */
  function BookId(b: Obj): Value {
    Field(b, "book_id")
  }

  /**
   * `bookings.map(b => b.book_id === id ? {...b, status} : b)`: same length
   * and order; a matching booking gets the new status and keeps every other
   * property; the others are untouched.
   */
  function WithStatus(bookings: seq<Obj>, id: Value, status: Value): (r: seq<Obj>)
    ensures |r| == |bookings|
    ensures forall i :: 0 <= i < |r| && BookId(bookings[i]) != id ==> r[i] == bookings[i]
    ensures forall i :: 0 <= i < |r| && BookId(bookings[i]) == id ==>
              && r[i].Keys == bookings[i].Keys + {"status"}
              && r[i]["status"] == status
              && (forall k :: k in bookings[i] && k != "status" ==> r[i][k] == bookings[i][k])
  {
    seq(|bookings|, i requires 0 <= i < |bookings| =>
      if BookId(bookings[i]) == id then bookings[i]["status" := status] else bookings[i])
  }

  /**
   * `bookings.map(b => b.book_id === updated.book_id ? {...b, ...updated} : b)`:
   * same length and order; in a matching booking every property of `updated`
   * takes the new value and every other property is kept; the others are
   * untouched.
   */
  function MergeById(bookings: seq<Obj>, updated: Obj): (r: seq<Obj>)
    ensures |r| == |bookings|
    ensures forall i :: 0 <= i < |r| && BookId(bookings[i]) != BookId(updated) ==> r[i] == bookings[i]
    ensures forall i :: 0 <= i < |r| && BookId(bookings[i]) == BookId(updated) ==>
              && r[i].Keys == bookings[i].Keys + updated.Keys
              && (forall k :: k in updated ==> r[i][k] == updated[k])
              && (forall k :: k in bookings[i] && k !in updated ==> r[i][k] == bookings[i][k])
  {
    seq(|bookings|, i requires 0 <= i < |bookings| =>
      if BookId(bookings[i]) == BookId(updated) then bookings[i] + updated else bookings[i])
  }

  /**
   * A server answer that carries the booking's id and a status overrides the
   * optimistic status: merging it into the optimistically updated list gives
   * the same list as merging it into the list before the optimistic change.
   */
  lemma ServerAnswerSupersedesOptimistic(bookings: seq<Obj>, status: Value, updated: Obj)
    requires "status" in updated
    ensures MergeById(WithStatus(bookings, BookId(updated), status), updated) == MergeById(bookings, updated)
  {
    var id := BookId(updated);
    var optimistic := WithStatus(bookings, id, status);
    forall i | 0 <= i < |bookings|
      ensures MergeById(optimistic, updated)[i] == MergeById(bookings, updated)[i]
    {
      if BookId(bookings[i]) == id {
        assert BookId(optimistic[i]) == id;
        assert optimistic[i] + updated == bookings[i] + updated;
      }
    }
  }

  /** Setting the same status twice is the same as setting it once. */
  lemma WithStatusIsIdempotent(bookings: seq<Obj>, id: Value, status: Value)
    ensures WithStatus(WithStatus(bookings, id, status), id, status) == WithStatus(bookings, id, status)
  {
    var once := WithStatus(bookings, id, status);
    forall i | 0 <= i < |bookings|
      ensures WithStatus(once, id, status)[i] == once[i]
    {
      if BookId(bookings[i]) == id {
        assert once[i]["status" := status] == once[i];
      }
    }
  }

  // ---------------------------------------------------------------------------
  // The slice state and its reducers

  datatype BookingState = BookingState(
    employeeList: Value,
    booking: Value,
    userBookings: seq<Obj>,
    loading: bool,
    error: Value,
    success: bool)

  const Initial := BookingState(Null, Null, [], false, Null, false)

  class BookingStore {
    var employeeList: Value
    var booking: Value
    var userBookings: seq<Obj>
    var loading: bool
    var error: Value
    var success: bool

    function State(): BookingState
      reads this
    {
      BookingState(employeeList, booking, userBookings, loading, error, success)
    }

    constructor ()
      ensures State() == Initial
    {
      employeeList := Null;
      booking := Null;
      userBookings := [];
      loading := false;
      error := Null;
      success := false;
    }

    /** resetBookingState: clears the create-booking result and the flags; the lists stay. */
    method ResetBookingState()
      modifies this
      ensures State() == old(State()).(booking := Null, error := Null, success := false, loading := false)
    {
      booking := Null;
      error := Null;
      success := false;
      loading := false;
    }

    /** optimisticUpdateBookingStatus */
    method OptimisticUpdateBookingStatus(id: Value, status: Value)
      modifies this
      ensures State() == old(State()).(userBookings := WithStatus(old(userBookings), id, status))
    {
      userBookings := WithStatus(userBookings, id, status);
    }

    method NearbyPending()
      modifies this
      ensures State() == old(State()).(loading := true, error := Null)
    {
      loading := true;
      error := Null;
    }

    method NearbyFulfilled(payload: Value)
      modifies this
      ensures State() == old(State()).(loading := false, employeeList := payload, success := true)
    {
      loading := false;
      employeeList := payload;
      success := true;
    }

    method NearbyRejected(payload: Value)
      modifies this
      ensures State() == old(State()).(loading := false, error := payload, success := false)
    {
      loading := false;
      error := payload;
      success := false;
    }

    /** bookingCreatetionByUser.pending: starts a fresh creation. */
    method CreatePending()
      modifies this
      ensures State() == old(State()).(loading := true, error := Null, success := false, booking := Null)
    {
      loading := true;
      error := Null;
      success := false;
      booking := Null;
    }

    method CreateFulfilled(payload: Value)
      modifies this
      ensures State() == old(State()).(loading := false, booking := payload, success := true)
    {
      loading := false;
      booking := payload;
      success := true;
    }

    method CreateRejected(payload: Value)
      modifies this
      ensures State() == old(State()).(loading := false, error := payload, success := false)
    {
      loading := false;
      error := payload;
      success := false;
    }

    /** The pending case of fetchUserBookings and of fetchEmployeeBookings. */
    method FetchBookingsPending()
      modifies this
      ensures State() == old(State()).(loading := true, error := Null)
    {
      loading := true;
      error := Null;
    }

    /** The fulfilled case of both booking fetches: the list is replaced wholesale. */
    method FetchBookingsFulfilled(payload: seq<Obj>)
      modifies this
      ensures State() == old(State()).(loading := false, userBookings := payload)
    {
      loading := false;
      userBookings := payload;
    }

    /** The rejected case of both booking fetches; `success` is left alone. */
    method FetchBookingsRejected(payload: Value)
      modifies this
      ensures State() == old(State()).(loading := false, error := payload)
    {
      loading := false;
      error := payload;
    }

    /** updateBookingStatus.pending touches nothing but `loading`. */
    method UpdateStatusPending()
      modifies this
      ensures State() == old(State()).(loading := true)
    {
      loading := true;
    }

    method UpdateStatusFulfilled(updated: Obj)
      modifies this
      ensures State() == old(State()).(loading := false, success := true,
                                       userBookings := MergeById(old(userBookings), updated))
    {
      loading := false;
      success := true;
      userBookings := MergeById(userBookings, updated);
    }

    method UpdateStatusRejected(payload: Value)
      modifies this
      ensures State() == old(State()).(loading := false, error := payload, success := false)
    {
      loading := false;
      error := payload;
      success := false;
    }
  }

  /**
   * A failed creation that came back with no body leaves a readable error in
   * the store: the rejection payload is `{error: "Failed to create booking"}`.
   */
  lemma CreateFailureWithoutBody()
    ensures CreateBookingError(Undefined) == Object(map["error" := Str("Failed to create booking")])
  {
    assert At(Member(Undefined, "booking_date"), 0) == Undefined;
  }
}
