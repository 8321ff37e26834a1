/**
 * The employee dashboard, src/features/dashboard/employee/DashboardSection.jsx:
 * the status drop-down with its "completed requires hours" modal, the four
 * stat cards and the colour of each status.
 */
module DashboardSection {
  import opened Js

  /** The argument of one `updateBookingStatus` dispatch. */
  datatype StatusUpdate = StatusUpdate(bookId: Value, status: string, workingHours: Value)

  const Completed := "completed"

  /**
   * The modal's state (`showHoursModal`, `selectedBookingId`, `hoursInput`)
   * together with the updates the page has dispatched so far.
   */
  datatype ModalState = ModalState(
    showHoursModal: bool,
    selectedBookingId: Value,
    hoursInput: string,
    dispatched: seq<StatusUpdate>)

  const Closed := ModalState(false, Null, "", [])

  class CompletionModal {
    var showHoursModal: bool
    var selectedBookingId: Value
    var hoursInput: string
    var dispatched: seq<StatusUpdate>

    function State(): ModalState
      reads this
    {
      ModalState(showHoursModal, selectedBookingId, hoursInput, dispatched)
    }

    /**
     * A hidden modal holds no booking and no hours, and no booking is ever
     * marked completed without a non-empty number of hours.
     */
    predicate Valid()
      reads this
    {
      && (!showHoursModal ==> selectedBookingId == Null && hoursInput == "")
      && (forall i :: 0 <= i < |dispatched| && dispatched[i].status == Completed ==>
            Truthy(dispatched[i].bookId) && dispatched[i].workingHours.Str? &&
            dispatched[i].workingHours.s != "")
    }

    constructor ()
      ensures State() == Closed && Valid()
    {
      showHoursModal := false;
      selectedBookingId := Null;
      hoursInput := "";
      dispatched := [];
    }

    /**
     * handleStatusChange: "completed" only opens the modal for the booking
     * with the hours emptied; any other status is sent at once with zero
     * working hours.
     */
    method HandleStatusChange(id: Value, newStatus: string)
      requires Valid()
      modifies this
      ensures Valid()
      ensures newStatus == Completed ==>
                State() == old(State()).(showHoursModal := true, selectedBookingId := id, hoursInput := "")
      ensures newStatus != Completed ==>
                State() == old(State()).(dispatched := old(dispatched) + [StatusUpdate(id, newStatus, Num(0))])
    {
      if newStatus == Completed {
        selectedBookingId := id;
        hoursInput := "";
        showHoursModal := true;
      } else {
        dispatched := dispatched + [StatusUpdate(id, newStatus, Num(0))];
      }
    }

    /** The hours field's onChange; the field exists only inside the open modal. */
    method SetHoursInput(text: string)
      requires Valid() && showHoursModal
      modifies this
      ensures Valid()
      ensures State() == old(State()).(hoursInput := text)
    {
      hoursInput := text;
    }

    /**
     * submitCompletion: with a booking and some hours, send the completion
     * with the hours as typed and close the modal; otherwise do nothing.
     */
    method SubmitCompletion()
      requires Valid()
      modifies this
      ensures Valid()
      ensures Truthy(old(selectedBookingId)) && old(hoursInput) != "" ==>
                State() == Closed.(dispatched := old(dispatched) +
                                   [StatusUpdate(old(selectedBookingId), Completed, Str(old(hoursInput)))])
      ensures !(Truthy(old(selectedBookingId)) && old(hoursInput) != "") ==> State() == old(State())
    {
      if Truthy(selectedBookingId) && hoursInput != "" {
        dispatched := dispatched + [StatusUpdate(selectedBookingId, Completed, Str(hoursInput))];
        CloseModal();
      }
    }

    /** closeModal: hide the modal and forget the booking and the hours. */
    method CloseModal()
      requires Valid()
      modifies this
      ensures Valid()
      ensures State() == Closed.(dispatched := old(dispatched))
    {
      showHoursModal := false;
      selectedBookingId := Null;
      hoursInput := "";
    }
  }

  // ---------------------------------------------------------------------------
  // Stat cards

  /**
   * `b.status === "completed" && b.amount`: the bookings the earnings card
   * adds up. A booking that is not completed, or whose amount is missing,
   * null, 0 or "", is left out.
   */
  predicate Earns(b: Obj)
    ensures Earns(b) ==> Field(b, "status") == Str(Completed)
    ensures Earns(b) ==> Field(b, "amount") !in {Undefined, Null, Bool(false), Num(0), Str("")}
  {
    Field(b, "status") == Str(Completed) && Truthy(Field(b, "amount"))
  }

  /** `a + b` on numbers where None is NaN, which absorbs everything. */
  function AddNumbers(a: Option<int>, b: Option<int>): (r: Option<int>)
    ensures r.Some? <==> a.Some? && b.Some?
    ensures r.Some? ==> r.value == a.value + b.value
    ensures a == Some(0) ==> r == b
  {
    if a.Some? && b.Some? then Some(a.value + b.value) else None
  }

  /**
   * What one booking adds to the earnings: `Number(amount)` when it earns,
   * else nothing (0); a numeric amount is added as it is.
   */
  function Contribution(b: Obj): (c: Option<int>)
    ensures !Earns(b) ==> c == Some(0)
    ensures Earns(b) ==> c == ToNumber(Field(b, "amount"))
    ensures Earns(b) && Field(b, "amount").Num? ==> c == Some(Field(b, "amount").n) && c != Some(0)
  {
    if Earns(b) then ToNumber(Field(b, "amount")) else Some(0)
  }

  /**
   * The earnings card: the sum of `Number(amount)` over the bookings that
   * earn, or NaN (None) exactly when one of those amounts is not a number. A
   * list with nothing to add gives 0.
   */
  function Earnings(bookings: seq<Obj>): (total: Option<int>)
    ensures (forall i :: 0 <= i < |bookings| ==> !Earns(bookings[i])) ==> total == Some(0)
    ensures total.Some? <==> forall i :: 0 <= i < |bookings| ==> Contribution(bookings[i]).Some?
    decreases |bookings|
  {
    if bookings == [] then Some(0)
    else
      var rest := Earnings(bookings[1..]);
      assert forall i :: 1 <= i < |bookings| ==> bookings[i] == bookings[1..][i - 1];
      AddNumbers(Contribution(bookings[0]), rest)
  }

  /** A single booking's earnings are its contribution. */
  lemma EarningsOfOne(b: Obj)
    ensures Earnings([b]) == Contribution(b)
  {
    assert [b][1..] == [];
  }

  /**
   * The page's chain itself: `filter(Earns)` then `reduce` left to right from
   * `acc`, adding `Number(curr.amount)` of each booking kept.
   */
  function ReduceEarnings(acc: Option<int>, bookings: seq<Obj>): (r: Option<int>)
    ensures acc.None? ==> r.None?
    decreases |bookings|
  {
    if bookings == [] then acc
    else
      var next := if Earns(bookings[0]) then AddNumbers(acc, ToNumber(Field(bookings[0], "amount"))) else acc;
      ReduceEarnings(next, bookings[1..])
  }

  /** Folding from any accumulator adds the earnings of the bookings to it. */
  lemma {:induction false} ReduceEarningsAddsEarnings(acc: Option<int>, bookings: seq<Obj>)
    ensures ReduceEarnings(acc, bookings) == AddNumbers(acc, Earnings(bookings))
    decreases |bookings|
  {
    if bookings != [] {
      var next := if Earns(bookings[0]) then AddNumbers(acc, ToNumber(Field(bookings[0], "amount"))) else acc;
      ReduceEarningsAddsEarnings(next, bookings[1..]);
      AddNumbersAssociative(acc, Contribution(bookings[0]), Earnings(bookings[1..]));
    }
  }

  /** The page's filter-and-reduce from 0 is exactly `Earnings`. */
  lemma EarningsIsReduce(bookings: seq<Obj>)
    ensures Earnings(bookings) == ReduceEarnings(Some(0), bookings)
  {
    ReduceEarningsAddsEarnings(Some(0), bookings);
  }

  lemma AddNumbersAssociative(x: Option<int>, y: Option<int>, z: Option<int>)
    ensures AddNumbers(x, AddNumbers(y, z)) == AddNumbers(AddNumbers(x, y), z)
  {
  }

  /** Earnings of two lists put together are the earnings of each, added. */
  lemma {:induction false} EarningsAppend(a: seq<Obj>, b: seq<Obj>)
    ensures Earnings(a + b) == AddNumbers(Earnings(a), Earnings(b))
    decreases |a|
  {
    if a == [] {
      assert a + b == b;
    } else {
      assert (a + b)[0] == a[0];
      assert (a + b)[1..] == a[1..] + b;
      EarningsAppend(a[1..], b);
      AddNumbersAssociative(Contribution(a[0]), Earnings(a[1..]), Earnings(b));
    }
  }

  /** With every counted amount a non-negative number, the earnings are a non-negative number. */
  lemma {:induction false} EarningsNonNegative(bookings: seq<Obj>)
    requires forall i :: 0 <= i < |bookings| && Earns(bookings[i]) ==>
               ToNumber(Field(bookings[i], "amount")).Some? && ToNumber(Field(bookings[i], "amount")).value >= 0
    ensures Earnings(bookings).Some? && Earnings(bookings).value >= 0
    decreases |bookings|
  {
    if bookings != [] {
      EarningsNonNegative(bookings[1..]);
    }
  }

  /** A completed booking whose amount arrives as a digit string adds that number. */
  lemma CompletedAmountStringCounts(amount: string)
    requires amount != "" && AllDigits(amount)
    ensures Earnings([map["status" := Str(Completed), "amount" := Str(amount)]]) == Some(DigitsValue(amount))
  {
    NumberOfDigits(amount);
  }

  /** `bookings.filter(b => b.status === status).length`: an exact, case-sensitive match. */
  function CountStatus(bookings: seq<Obj>, status: string): (n: nat)
    ensures n <= |bookings|
    ensures n == 0 <==> forall i :: 0 <= i < |bookings| ==> Field(bookings[i], "status") != Str(status)
    ensures n == |bookings| <==> forall i :: 0 <= i < |bookings| ==> Field(bookings[i], "status") == Str(status)
    decreases |bookings|
  {
    if bookings == [] then 0
    else
      assert forall i :: 1 <= i < |bookings| ==> bookings[i] == bookings[1..][i - 1];
      (if Field(bookings[0], "status") == Str(status) then 1 else 0) + CountStatus(bookings[1..], status)
  }

  /** The Pending card: no more than the bookings, and 0 exactly when none is "pending". */
  function PendingCount(bookings: seq<Obj>): (n: nat)
    ensures n <= |bookings|
    ensures n == 0 <==> forall i :: 0 <= i < |bookings| ==> Field(bookings[i], "status") != Str("pending")
  {
    CountStatus(bookings, "pending")
  }

  /**
   * The Active card: only the exact spelling "in_Progress" the drop-down
   * sends; 0 exactly when no booking carries it.
   */
  function ActiveCount(bookings: seq<Obj>): (n: nat)
    ensures n <= |bookings|
    ensures n == 0 <==> forall i :: 0 <= i < |bookings| ==> Field(bookings[i], "status") != Str("in_Progress")
  {
    CountStatus(bookings, "in_Progress")
  }

  /** Two different statuses never count the same booking, so together they fit the total. */
  lemma {:induction false} DistinctStatusesFitTotal(bookings: seq<Obj>, s1: string, s2: string)
    requires s1 != s2
    ensures CountStatus(bookings, s1) + CountStatus(bookings, s2) <= |bookings|
    decreases |bookings|
  {
    if bookings != [] {
      DistinctStatusesFitTotal(bookings[1..], s1, s2);
    }
  }

  /** Pending plus Active never exceeds Total Jobs. */
  lemma PendingAndActiveFitTotal(bookings: seq<Obj>)
    ensures PendingCount(bookings) + ActiveCount(bookings) <= |bookings|
  {
    assert "pending"[0] != "in_Progress"[0];
    DistinctStatusesFitTotal(bookings, "pending", "in_Progress");
  }

  /**
   * The match is case-sensitive: bookings whose status is the lower-case
   * "in_progress" are not active here.
   */
  lemma LowerCaseInProgressIsNotActive(bookings: seq<Obj>)
    requires forall i :: 0 <= i < |bookings| ==> Field(bookings[i], "status") == Str("in_progress")
    ensures ActiveCount(bookings) == 0
  {
    assert "in_progress"[3] != "in_Progress"[3];
  }

  // ---------------------------------------------------------------------------
  // Status colours

  const Gray := "text-gray-500"

  /** The statuses the drop-down colours specially. */
  const KnownStatuses := {"confirmed", "in_Progress", "completed", "canceled", "incompleted"}

  /** getStatusColor: five statuses have their own class, anything else is gray. */
  function StatusColor(status: Value): (color: string)
    ensures color == Gray <==> !(status.Str? && status.s in KnownStatuses)
    ensures status == Str("completed") ==> color == "text-green-600 font-bold"
  {
    match status
    case Str("confirmed") => "text-blue-600 font-semibold"
    case Str("in_Progress") => "text-purple-600 font-semibold"
    case Str("completed") => "text-green-600 font-bold"
    case Str("canceled") => "text-red-500"
    case Str("incompleted") => "text-orange-500"
    case _ => Gray
  }
}
