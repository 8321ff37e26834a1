/**
 * The client dashboard, src/features/dashboard/user/DashboardSectionUser.jsx:
 * the three booking counters, the colour badge of a status and the status
 * label shown on each booking card.
 */
module DashboardSectionUser {
  import opened Js
  import BookingStatic

  /**
   * `["pending", "confirmed", "in_progress"].includes(b.status?.toLowerCase())`
   * asks the same question as the employee page's normalised status: a
   * missing status is undefined here and "" there, and neither is in any set
   * of statuses.
   */
  const ActiveStatuses := {"pending", "confirmed", "in_progress"}
  const CompletedStatuses := {"completed"}

  /** The Active counter: 0 exactly when no booking's lower-cased status is an active one. */
  function ActiveCount(bookings: seq<Obj>): (n: nat)
    ensures n <= |bookings|
    ensures n == 0 <==> forall i :: 0 <= i < |bookings| ==> BookingStatic.StatusOf(bookings[i]) !in ActiveStatuses
  {
    BookingStatic.CountIn(bookings, ActiveStatuses)
  }

  /** The Completed counter: 0 exactly when no booking's lower-cased status is "completed". */
  function CompletedCount(bookings: seq<Obj>): (n: nat)
    ensures n <= |bookings|
    ensures n == 0 <==> forall i :: 0 <= i < |bookings| ==> BookingStatic.StatusOf(bookings[i]) != "completed"
  {
    BookingStatic.CountIn(bookings, CompletedStatuses)
  }

  /**
   * No booking is both active and completed, so the two counters together
   * never exceed the total.
   */
  lemma ActiveAndCompletedFitTotal(bookings: seq<Obj>)
    ensures ActiveCount(bookings) + CompletedCount(bookings) <= |bookings|
  {
    assert "completed"[0] != "pending"[0] && "completed"[0] != "in_progress"[0];
    assert "completed"[3] != "confirmed"[3];
    assert ActiveStatuses !! CompletedStatuses;
    BookingStatic.CountDisjointUnion(bookings, ActiveStatuses, CompletedStatuses);
  }

  /** A booking without a status adds to neither counter. */
  lemma MissingStatusNeverCounted(b: Obj, rest: seq<Obj>)
    requires "status" !in b
    ensures ActiveCount([b] + rest) == ActiveCount(rest)
    ensures CompletedCount([b] + rest) == CompletedCount(rest)
  {
    assert ([b] + rest)[1..] == rest;
    assert BookingStatic.StatusOf(b) == "";
  }

  /**
   * Statuses are compared after lower-casing, so "confirmed" in any mix of
   * upper and lower case ("Confirmed", "CONFIRMED") is active.
   */
  lemma CapitalisedStatusIsActive(b: Obj, status: string)
    requires Field(b, "status") == Str(status) && |status| == |"confirmed"|
    requires forall i :: 0 <= i < |status| ==> status[i] == "confirmed"[i] || status[i] == "CONFIRMED"[i]
    ensures ActiveCount([b]) == 1
  {
    forall i | 0 <= i < |status|
      ensures LowerChar(status[i]) == "confirmed"[i]
    {
    }
    assert Lower(status) == "confirmed";
    assert [b][1..] == [];
  }

  // ---------------------------------------------------------------------------
  // Status badge and label

  const Badges: map<string, string> := map[
    "pending" := "bg-amber-100 text-amber-700 border-amber-200",
    "confirmed" := "bg-sky-100 text-sky-700 border-sky-200",
    "in_progress" := "bg-violet-100 text-violet-700 border-violet-200",
    "completed" := "bg-emerald-100 text-emerald-700 border-emerald-200",
    "canceled" := "bg-slate-100 text-slate-600 border-slate-200",
    "incompleted" := "bg-rose-100 text-rose-700 border-rose-200"
  ]

  /**
   * getStatusBadge: the style of the lower-cased status, falling back to the
   * pending style for a missing, empty or unknown one. The lookup
   * `config[s] || config.pending` also reads properties inherited by every
   * object, so a status such as "constructor" yields a function in
   * JavaScript; the model's table holds only the listed styles.
   */
  function StatusBadge(status: Value): (badge: string)
    ensures badge in Badges.Values
    ensures status.Str? && Lower(status.s) in Badges ==> badge == Badges[Lower(status.s)]
    ensures !(status.Str? && Lower(status.s) in Badges) ==> badge == Badges["pending"]
  {
    var s := if status.Str? && Lower(status.s) != "" then Lower(status.s) else "pending";
    if s in Badges then Badges[s] else Badges["pending"]
  }

  /**
   * A status outside the six known ones is shown like a pending one: any
   * status whose first letter, lower-cased, is not the first letter of a
   * known one ("rejected", "accepted", "done").
   */
  lemma RejectedLooksPending(status: string)
    requires status != "" && LowerChar(status[0]) !in {'p', 'c', 'i'}
    ensures StatusBadge(Str(status)) == Badges["pending"]
  {
    var s := Lower(status);
    assert s[0] == LowerChar(status[0]);
    assert s !in Badges by {
      assert "pending"[0] == 'p' && "confirmed"[0] == 'c' && "in_progress"[0] == 'i';
      assert "completed"[0] == 'c' && "canceled"[0] == 'c' && "incompleted"[0] == 'i';
    }
  }

  /** The label on a card: `status?.replace("_", " ")`, nothing when the status is missing. */
  function StatusLabel(status: Value): (shown: Option<string>)
    ensures status.Str? <==> shown.Some?
    ensures status.Str? ==> |shown.value| == |status.s|
    ensures status.Str? && '_' !in status.s ==> shown.value == status.s
  {
    if status.Str? then Some(ReplaceFirst(status.s, '_', ' ')) else None
  }

  /** Only the first underscore becomes a space; the rest of the status is shown as it is. */
  lemma LabelReplacesFirstUnderscoreOnly(status: string, k: nat)
    requires k < |status| && status[k] == '_' && '_' !in status[..k]
    ensures StatusLabel(Str(status)) == Some(status[..k] + " " + status[k + 1..])
  {
    ReplaceFirstAt(status, '_', ' ', k);
  }
}
