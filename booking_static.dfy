/**
 * The employee's booking requests page, src/features/dashboard/employee/BookingStatic.jsx:
 * a local copy of the store's bookings, the status bucket counts shown at the
 * top, the Accept/Decline buttons, and the optimistic status change with its
 * rollback.
 */
module BookingStatic {
  import opened Js
  import opened BookingSlice

  /** `typeof s === "string" ? s.toLowerCase() : ""`. */
  function NormalizeStatus(s: Value): (r: string)
    ensures s.Str? ==> |r| == |s.s| && forall i :: 0 <= i < |r| ==> r[i] == LowerChar(s.s[i])
    ensures !s.Str? ==> r == ""
  {
    if s.Str? then Lower(s.s) else ""
  }

  /** The status a card is judged by: lower-cased text, "" when it is not a string. */
  function StatusOf(b: Obj): (r: string)
    ensures Lower(r) == r
    ensures Field(b, "status").Str? ==> |r| == |Field(b, "status").s|
    ensures !Field(b, "status").Str? ==> r == ""
  {
    if Field(b, "status").Str? then LowerIsIdempotent(Field(b, "status").s); NormalizeStatus(Field(b, "status"))
    else NormalizeStatus(Field(b, "status"))
  }

  /** The number of bookings whose normalised status is one of `statuses`. */
  function CountIn(bookings: seq<Obj>, statuses: set<string>): (n: nat)
    ensures n <= |bookings|
    ensures n == 0 <==> forall i :: 0 <= i < |bookings| ==> StatusOf(bookings[i]) !in statuses
    decreases |bookings|
  {
    if bookings == [] then 0
    else (if StatusOf(bookings[0]) in statuses then 1 else 0) + CountIn(bookings[1..], statuses)
  }

  const PendingStatuses := {"pending"}
  const ConfirmedStatuses := {"confirmed", "accepted"}
  const CanceledStatuses := {"canceled", "rejected"}

  /** Counting two disjoint sets of statuses separately is counting their union. */
  lemma {:induction false} CountDisjointUnion(bookings: seq<Obj>, a: set<string>, b: set<string>)
    requires a !! b
    ensures CountIn(bookings, a) + CountIn(bookings, b) == CountIn(bookings, a + b)
    decreases |bookings|
  {
    if bookings != [] {
      CountDisjointUnion(bookings[1..], a, b);
    }
  }

  /** No status belongs to two buckets. */
  lemma BucketsDisjoint()
    ensures PendingStatuses !! ConfirmedStatuses
    ensures PendingStatuses + ConfirmedStatuses !! CanceledStatuses
  {
    assert |"pending"| != |"confirmed"| && |"pending"| != |"accepted"|;
    assert |"pending"| != |"canceled"| && |"pending"| != |"rejected"|;
    assert |"confirmed"| != |"canceled"| && |"confirmed"| != |"rejected"|;
    assert "accepted"[0] != "canceled"[0] && "accepted"[0] != "rejected"[0];
  }

  /** The three buckets never overlap, so together they count at most every booking once. */
  lemma BucketsFitTotal(bookings: seq<Obj>)
    ensures CountIn(bookings, PendingStatuses) + CountIn(bookings, ConfirmedStatuses) +
            CountIn(bookings, CanceledStatuses) <= |bookings|
  {
    BucketsDisjoint();
    CountDisjointUnion(bookings, PendingStatuses, ConfirmedStatuses);
    CountDisjointUnion(bookings, PendingStatuses + ConfirmedStatuses, CanceledStatuses);
  }

  /** Status changes a booking card offers: Accept and Decline for a pending booking only. */
  function Actions(b: Obj): (r: seq<string>)
    ensures r != [] <==> StatusOf(b) == "pending"
    ensures r != [] ==> r == ["confirmed", "canceled"]
  {
    if StatusOf(b) == "pending" then ["confirmed", "canceled"] else []
  }

  /**
   * "pending" in any mix of upper and lower case ("Pending", "PENDING")
   * still gets the buttons, because the status is lower-cased first.
   */
  lemma MixedCasePendingIsOffered(b: Obj, status: string)
    requires Field(b, "status") == Str(status) && |status| == |"pending"|
    requires forall i :: 0 <= i < |status| ==> status[i] == "pending"[i] || status[i] == "PENDING"[i]
    ensures Actions(b) == ["confirmed", "canceled"]
  {
    forall i | 0 <= i < |status|
      ensures LowerChar(status[i]) == "pending"[i]
    {
    }
    assert Lower(status) == "pending";
  }

  class BookingRequests {
    /** The list on screen (`localBookings`). */
    var localBookings: seq<Obj>

    constructor ()
      ensures localBookings == []
    {
      localBookings := [];
    }

    /** The effect that copies the store's list; None stands for a value that is not an array. */
    method SyncFromStore(fromStore: Option<seq<Obj>>)
      modifies this
      ensures localBookings == (if fromStore.Some? then fromStore.value else [])
    {
      localBookings := if fromStore.Some? then fromStore.value else [];
    }

    /**
     * handleStatusChange: take a snapshot, set the status locally and in the
     * store, then send the update. `answer` is the server's reply: Some(res)
     * when the update was fulfilled, None when it was rejected with
     * `errorPayload`. On success both lists get the reply merged in; on
     * failure the local list goes back to the snapshot while the store keeps
     * its optimistic status.
     */
    method HandleStatusChange(store: BookingStore, id: Value, statusToSet: string,
                              answer: Option<Obj>, errorPayload: Value)
      modifies this, store
      ensures var optimisticStore := WithStatus(old(store.userBookings), id, Str(statusToSet));
              match answer
              case Some(res) =>
                && localBookings == MergeById(WithStatus(old(localBookings), id, Str(statusToSet)), res)
                && store.State() == old(store.State()).(userBookings := MergeById(optimisticStore, res),
                                                        loading := false, success := true)
              case None =>
                && localBookings == old(localBookings)
                && store.State() == old(store.State()).(userBookings := optimisticStore,
                                                        loading := false, success := false,
                                                        error := errorPayload)
    {
      var prevLocal := localBookings;
      localBookings := WithStatus(localBookings, id, Str(statusToSet));
      store.OptimisticUpdateBookingStatus(id, Str(statusToSet));
      store.UpdateStatusPending();
      match answer {
        case Some(res) =>
          store.UpdateStatusFulfilled(res);
          localBookings := MergeById(localBookings, res);
        case None =>
          store.UpdateStatusRejected(errorPayload);
          localBookings := prevLocal;
      }
    }
  }
}
