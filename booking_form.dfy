/**
 * The booking request form, src/features/booking/BookingForm.jsx: the form
 * state, its change handler, and handleSubmit with its guard and loading
 * flag.
 *
 * handleSubmit awaits the dispatch, so it is two steps here: `BeginSubmit`
 * runs up to the `await` and `FinishSubmit` runs once the answer is in. The
 * answer (`unwrap()` resolved, or rejected with a value) is an input.
 */
module BookingForm {
  import opened Js
  import Forms
  import BookingSlice

  const BookingFailed := "Failed to create booking. Please try again."

  /** The form a page for employee `employeeId` (the route parameter) starts with. */
  function InitialForm(employeeId: Value): (form: Obj)
    ensures form.Keys == {"booking_date", "job", "employee_id"}
    ensures form["booking_date"] == Str("") && form["job"] == Str("") && form["employee_id"] == employeeId
  {
    map["booking_date" := Str(""), "job" := Str(""), "employee_id" := employeeId]
  }

  /** The guard: both the date and the job must be filled. */
  predicate Complete(form: Obj)
    ensures Complete(form) ==> "booking_date" in form && form["booking_date"] !in {Str(""), Null}
    ensures Complete(form) ==> "job" in form && form["job"] !in {Str(""), Null}
    ensures (&& Field(form, "booking_date").Str? && Field(form, "booking_date").s != ""
             && Field(form, "job").Str? && Field(form, "job").s != "") ==> Complete(form)
  {
    Truthy(Field(form, "booking_date")) && Truthy(Field(form, "job"))
  }

  /** How the awaited `unwrap()` ended. */
  datatype Answer = Created | Failed(err: Value)

  /** What the page shows after the answer: a success toast and the dashboard, or an error toast. */
  datatype Result = GoToDashboard | ErrorToast(message: Value)

  /** `err?.error || default`. */
  function Finish(answer: Answer): (r: Result)
    ensures answer.Created? <==> r == GoToDashboard
    ensures answer.Failed? && Truthy(Member(answer.err, "error")) ==> r == ErrorToast(Member(answer.err, "error"))
    ensures answer.Failed? && !Truthy(Member(answer.err, "error")) ==> r == ErrorToast(Str(BookingFailed))
  {
    match answer
    case Created => GoToDashboard
    case Failed(err) => ErrorToast(Or(Member(err, "error"), Str(BookingFailed)))
  }

  /**
   * A rejection the booking slice made shows the slice's message: the slice
   * always rejects with a truthy `error`, so the page's own default is never
   * seen for it.
   */
  lemma SliceMessageIsShown(data: Value)
    ensures Finish(Failed(BookingSlice.CreateBookingError(data)))
            == ErrorToast(BookingSlice.CreateBookingError(data).fields["error"])
  {
  }

  class BookingFormPage {
    var formData: Obj
    var isLoading: bool

    constructor(employeeId: Value)
      ensures formData == InitialForm(employeeId) && !isLoading
    {
      formData := InitialForm(employeeId);
      isLoading := false;
    }

    /** handleChange: the named field takes the value, nothing else changes. */
    method HandleChange(name: string, value: string)
      modifies this
      ensures formData == Forms.WithField(old(formData), name, Str(value))
      ensures isLoading == old(isLoading)
    {
      formData := formData[name := Str(value)];
    }

    /**
     * handleSubmit up to the `await`: an incomplete form stops with nothing
     * sent and the loading flag as it was; otherwise the flag is raised and
     * the whole form is sent.
     */
    method BeginSubmit() returns (sent: Option<Obj>)
      modifies this
      ensures sent.Some? <==> Complete(formData)
      ensures sent.Some? ==> sent.value == formData && isLoading
      ensures sent.None? ==> isLoading == old(isLoading)
      ensures formData == old(formData)
    {
      if !Truthy(Field(formData, "booking_date")) || !Truthy(Field(formData, "job")) {
        return None;
      }
      isLoading := true;
      sent := Some(formData);
    }

    /** The rest of handleSubmit: the toast and, in `finally`, the flag lowered on either outcome. */
    method FinishSubmit(answer: Answer) returns (r: Result)
      modifies this
      ensures r == Finish(answer)
      ensures !isLoading && formData == old(formData)
    {
      r := Finish(answer);
      isLoading := false;
    }
  }
}
