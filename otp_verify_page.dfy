/**
 * The email verification page, src/pages/OtpVerifyPage.jsx: six code boxes,
 * a resend countdown, and the submit and resend handlers.
 *
 * The page state is a class holding the digit array `otp` and `countdown`.
 * localStorage is a map passed in and handed back; what `verifyOtp` and
 * `resendOtp` answered is a boolean input (fulfilled or not). The email is
 * read from storage as the page reads it, `localStorage.getItem("email")`,
 * falsy when missing or empty.
 */
module OtpVerifyPage {
  import opened Js
  import ApiClient

  const CodeLength := 6
  const InitialCountdown := 30
  const ResendCountdown := 60
  const EmailKey := "email"

  /**
   * `isNaN(value)` for a typed string: `Number(value)` is not a number. An
   * empty box and a digit are numbers; a single letter or sign is not.
   */
  predicate IsNaN(value: string)
    ensures value == "" ==> !IsNaN(value)
    ensures value != "" && AllDigits(value) ==> !IsNaN(value)
    ensures |value| == 1 && !IsDigit(value[0]) && !IsSpace(value[0]) ==> IsNaN(value)
  {
    if value != "" && AllDigits(value) then
      NumberOfDigits(value);
      ToNumber(Str(value)).None?
    else if |value| == 1 && !IsDigit(value[0]) && !IsSpace(value[0]) then
      TrimOfUnpadded(value);
      ToNumber(Str(value)).None?
    else
      ToNumber(Str(value)).None?
  }

  /** The code boxes after typing `value` into box `index`: text that is not a number is ignored. */
  function Entered(otp: seq<string>, index: nat, value: string): (r: seq<string>)
    requires index < |otp|
    ensures |r| == |otp|
    ensures IsNaN(value) ==> r == otp
    ensures !IsNaN(value) ==> r[index] == value
    ensures forall i :: 0 <= i < |otp| && i != index ==> r[i] == otp[i]
  {
    if IsNaN(value) then otp else otp[index := value]
  }

  /** One tick of the countdown: down by one while it is positive, then it stays. */
  function Tick(countdown: int): (r: int)
    ensures r <= countdown
    ensures countdown >= 0 ==> r >= 0
    ensures r == countdown <==> countdown <= 0
  {
    if countdown > 0 then countdown - 1 else countdown
  }

  /** The countdown after `n` ticks. */
  function Ticks(countdown: int, n: nat): (r: int)
    ensures r <= countdown
    ensures countdown >= 0 ==> r >= 0
    ensures r == countdown <==> n == 0 || countdown <= 0
    decreases n
  {
    if n == 0 then countdown else Ticks(Tick(countdown), n - 1)
  }

  /** From a non-negative start, `n` ticks take off `n` seconds and stop at zero. */
  lemma {:induction false} TicksStopAtZero(countdown: int, n: nat)
    requires countdown >= 0
    ensures Ticks(countdown, n) == if countdown >= n then countdown - n else 0
    ensures Ticks(countdown, n) >= 0
    decreases n
  {
    if n > 0 {
      TicksStopAtZero(Tick(countdown), n - 1);
    }
  }

  /** The number of characters in all the boxes together. */
  function TotalLength(parts: seq<string>): nat
    decreases |parts|
  {
    if parts == [] then 0 else |parts[0]| + TotalLength(parts[1..])
  }

  /** `otp.join("")` is as long as the boxes' contents together. */
  lemma {:induction false} JoinedLength(parts: seq<string>)
    ensures |Join(parts, "")| == TotalLength(parts)
    decreases |parts|
  {
    if |parts| > 1 {
      JoinedLength(parts[1..]);
    } else if |parts| == 1 {
      assert parts[1..] == [];
    }
  }

  /** With at most one character per box, the total reaches the count of boxes only when none is empty. */
  lemma {:induction false} FullWhenNoneEmpty(parts: seq<string>)
    requires forall i :: 0 <= i < |parts| ==> |parts[i]| <= 1
    ensures TotalLength(parts) <= |parts|
    ensures TotalLength(parts) == |parts| <==> forall i :: 0 <= i < |parts| ==> parts[i] != ""
    decreases |parts|
  {
    if parts != [] {
      FullWhenNoneEmpty(parts[1..]);
      if TotalLength(parts) == |parts| {
        forall i | 0 <= i < |parts| ensures parts[i] != "" {
          if i > 0 { assert parts[i] == parts[1..][i - 1]; }
        }
      }
      if forall i :: 0 <= i < |parts| ==> parts[i] != "" {
        forall i | 0 <= i < |parts| - 1 ensures parts[1..][i] != "" {
          assert parts[1..][i] == parts[i + 1];
        }
      }
    }
  }

  /**
   * The code length check: when every box holds at most one character, as
   * one-character inputs give, the joined code has six characters exactly
   * when all six boxes are filled.
   */
  lemma CompleteIffAllFilled(otp: seq<string>)
    requires |otp| == CodeLength
    requires forall i :: 0 <= i < |otp| ==> |otp[i]| <= 1
    ensures |Join(otp, "")| == CodeLength <==> forall i :: 0 <= i < |otp| ==> otp[i] != ""
  {
    JoinedLength(otp);
    FullWhenNoneEmpty(otp);
  }

  /** What handleSubmit did. */
  datatype SubmitOutcome =
      /** No email stored: straight to /register. */
    | NoEmail
      /** The code is not six characters long: a toast, nothing sent. */
    | Incomplete
      /** `verifyOtp({ email, otp })` sent, and whether it was fulfilled. */
    | Sent(email: string, code: string, verified: bool)

  /** handleSubmit as a decision: the email check comes before the length check. */
  function Submit(storage: map<string, string>, otp: seq<string>, verified: bool): (r: SubmitOutcome)
    ensures r == NoEmail <==> ApiClient.StoredToken(storage, EmailKey).None?
    ensures r == Incomplete <==> ApiClient.StoredToken(storage, EmailKey).Some? && |Join(otp, "")| != CodeLength
    ensures r.Sent? ==> r.email == storage[EmailKey] && r.code == Join(otp, "") && |r.code| == CodeLength
    ensures r.Sent? ==> r.verified == verified
  {
    match ApiClient.StoredToken(storage, EmailKey)
    case None => NoEmail
    case Some(email) =>
      var code := Join(otp, "");
      if |code| != CodeLength then Incomplete else Sent(email, code, verified)
  }

  /** The email is removed after a fulfilled verification, and only then. */
  function StorageAfterSubmit(storage: map<string, string>, r: SubmitOutcome): (after: map<string, string>)
    ensures r.Sent? && r.verified ==> after == storage - {EmailKey}
    ensures !(r.Sent? && r.verified) ==> after == storage
  {
    if r.Sent? && r.verified then storage - {EmailKey} else storage
  }

  /** After a verified code the page cannot submit again: the next attempt goes to /register. */
  lemma VerifiedEmailIsGone(storage: map<string, string>, otp: seq<string>, again: seq<string>, verified: bool)
    requires Submit(storage, otp, true).Sent?
    ensures Submit(StorageAfterSubmit(storage, Submit(storage, otp, true)), again, verified) == NoEmail
  {
  }

  /** What handleResend did. */
  datatype ResendOutcome = ResendNoEmail | Resent | ResendFailed

  function Resend(storage: map<string, string>, sent: bool): (r: ResendOutcome)
    ensures r == ResendNoEmail <==> ApiClient.StoredToken(storage, EmailKey).None?
    ensures r == Resent <==> ApiClient.StoredToken(storage, EmailKey).Some? && sent
  {
    if ApiClient.StoredToken(storage, EmailKey).None? then ResendNoEmail
    else if sent then Resent
    else ResendFailed
  }

  class OtpPage {
    var otp: seq<string>
    var countdown: int

    constructor()
      ensures otp == ["", "", "", "", "", ""] && countdown == InitialCountdown
    {
      otp := ["", "", "", "", "", ""];
      countdown := InitialCountdown;
    }

    /**
     * handleChange: a copy of the boxes with the one at `index` replaced;
     * text that is not a number is ignored. The page has one box per index.
     */
    method HandleChange(index: nat, value: string)
      requires index < |otp|
      modifies this
      ensures otp == Entered(old(otp), index, value)
      ensures countdown == old(countdown)
    {
      if IsNaN(value) {
        return;
      }
      var copy := new string[|otp|];
      forall i | 0 <= i < |otp| {
        copy[i] := otp[i];
      }
      copy[index] := value;
      otp := copy[..];
    }

    /** One second of the countdown. */
    method OnTick()
      modifies this
      ensures countdown == Tick(old(countdown))
      ensures otp == old(otp)
    {
      if countdown > 0 {
        countdown := countdown - 1;
      }
    }

    /** handleSubmit: the boxes stay as they are; storage loses the email after a verified code. */
    method HandleSubmit(storage: map<string, string>, verified: bool) returns (r: SubmitOutcome, after: map<string, string>)
      ensures r == Submit(storage, otp, verified)
      ensures after == StorageAfterSubmit(storage, r)
    {
      after := storage;
      if EmailKey !in storage || storage[EmailKey] == "" {
        return NoEmail, after;
      }
      var email := storage[EmailKey];
      var code := Join(otp, "");
      if |code| != CodeLength {
        return Incomplete, after;
      }
      r := Sent(email, code, verified);
      if verified {
        after := after - {EmailKey};
      }
    }

    /** handleResend: a fulfilled resend restarts the countdown at 60. */
    method HandleResend(storage: map<string, string>, sent: bool) returns (r: ResendOutcome)
      modifies this
      ensures r == Resend(storage, sent)
      ensures countdown == if r == Resent then ResendCountdown else old(countdown)
      ensures otp == old(otp)
    {
      if EmailKey !in storage || storage[EmailKey] == "" {
        return ResendNoEmail;
      }
      if sent {
        countdown := ResendCountdown;
        return Resent;
      }
      return ResendFailed;
    }
  }
}
