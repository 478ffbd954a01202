/** Phone sign-in with a one-time password: the number is entered, a code is
    requested, then the code is entered and verified. The identity service is
    not part of this model; each request's outcome is an argument of the step
    that receives it. */
module AuthFlow {
  import opened Wrappers
  import opened Text
  import DeviceSession

  /** `phone.startsWith('+') ? phone : '+91' + phone`. */
  function FormatPhone(phone: string): (r: string)
    ensures StartsWith(r, "+")
    ensures StartsWith(phone, "+") ==> r == phone
    ensures !StartsWith(phone, "+") ==> r == "+91" + phone && r[3..] == phone
  {
    if StartsWith(phone, "+") then phone else "+91" + phone
  }

  /** Formatting a formatted number changes nothing. */
  lemma FormatPhoneIdempotent(phone: string)
    ensures FormatPhone(FormatPhone(phone)) == FormatPhone(phone)
  {
  }

  /** A number entered through the digits-only input always gets the +91
      prefix, and a ten-digit one becomes a 13-character number whose last
      ten characters are a valid mobile number. */
  lemma FormatDigits(phone: string)
    requires AllDigits(phone)
    ensures FormatPhone(phone) == "+91" + phone
    ensures |phone| == 10 ==> |FormatPhone(phone)| == 13 && DeviceSession.IsValidMobile(FormatPhone(phone)[3..])
  {
    if |phone| > 0 {
      assert phone[0] != '+';
    }
  }

  /** How the verification request came back. */
  datatype VerifyOutcome =
    | Verified(hasUser: bool)
    | Rejected(message: Option<string>)

  /** The sign-in component's state. */
  class PhoneSignIn {
    var phone: string
    var otp: string
    var isOtpSent: bool
    var isLoading: bool

    /** Both inputs strip everything but digits. */
    predicate Valid()
      reads this
    {
      AllDigits(phone) && AllDigits(otp)
    }

    constructor ()
      ensures Valid()
      ensures phone == "" && otp == "" && !isOtpSent && !isLoading
    {
      phone, otp, isOtpSent, isLoading := "", "", false, false;
    }

    /** The "Send OTP" button is enabled. */
    predicate CanSend(): (ok: bool)
      reads this
      ensures ok ==> !isLoading
      ensures Valid() ==> (ok <==> !isLoading && DeviceSession.IsValidMobile(phone))
    {
      !isLoading && |phone| == 10
    }

    /** The "Verify & Sign In" button is enabled. */
    predicate CanVerify(): (ok: bool)
      reads this
      ensures ok ==> !isLoading
      ensures Valid() ==> (ok <==> !isLoading && |otp| == 6 && KeepDigits(otp) == otp)
    {
      !isLoading && |otp| == 6
    }

    /** The phone input's `onChange`: `value.replace(/\D/g, '')`. */
    method EditPhone(raw: string)
      requires Valid()
      modifies this`phone
      ensures Valid()
      ensures phone == KeepDigits(raw)
    {
      phone := KeepDigits(raw);
    }

    /** The code input's `onChange`: `value.replace(/\D/g, '')`. */
    method EditOtp(raw: string)
      requires Valid()
      modifies this`otp
      ensures Valid()
      ensures otp == KeepDigits(raw)
    {
      otp := KeepDigits(raw);
    }

    /** The start of `sendOtp`: the request goes out for the formatted number. */
    method BeginSend() returns (request: string)
      requires Valid() && !isOtpSent && CanSend()
      modifies this`isLoading
      ensures isLoading
      ensures request == "+91" + phone
      ensures DeviceSession.IsValidMobile(request[3..])
    {
      FormatDigits(phone);
      isLoading := true;
      request := FormatPhone(phone);
    }

    /** The end of `sendOtp`: on success the code entry is shown; either way
        loading stops. The result is the toast's description. */
    method FinishSend(request: string, failure: Option<Option<string>>) returns (description: string)
      requires isLoading
      modifies this`isOtpSent, this`isLoading
      ensures !isLoading
      ensures isOtpSent == (old(isOtpSent) || failure.None?)
      ensures failure.None? ==> description == "Verification code sent to " + request
      ensures failure.Some? && failure.value.Some? ==> description == failure.value.value
      ensures failure == Some(None) ==> description == "Please try again"
    {
      match failure {
        case None =>
          isOtpSent := true;
          description := "Verification code sent to " + request;
        case Some(message) =>
          description := if message.Some? then message.value else "Please try again";
      }
      isLoading := false;
    }

    /** The start of `verifyOtp`: the code is checked for the formatted number. */
    method BeginVerify() returns (request: (string, string))
      requires Valid() && isOtpSent && CanVerify()
      modifies this`isLoading
      ensures isLoading
      ensures request == (FormatPhone(phone), otp) && |request.1| == 6 && AllDigits(request.1)
    {
      isLoading := true;
      request := (FormatPhone(phone), otp);
    }

    /** The end of `verifyOtp`: the rider is signed in only when the service
        confirms the code and returns a user; loading stops either way and
        the code entry stays. */
    method FinishVerify(outcome: VerifyOutcome) returns (signedIn: bool)
      requires isLoading
      modifies this`isLoading
      ensures !isLoading
      ensures signedIn <==> outcome == Verified(true)
    {
      signedIn := outcome.Verified? && outcome.hasUser;
      isLoading := false;
    }

    /** "Change Number": back to number entry with the code cleared. */
    method ChangeNumber()
      requires Valid() && isOtpSent && !isLoading
      modifies this`isOtpSent, this`otp
      ensures Valid()
      ensures !isOtpSent && otp == "" && phone == old(phone)
    {
      isOtpSent := false;
      otp := "";
    }
  }

  /** Sanitising any typed text and then formatting it yields +91 followed
      by exactly the digits typed. */
  lemma FormatTyped(raw: string)
    ensures FormatPhone(KeepDigits(raw)) == "+91" + KeepDigits(raw)
  {
    FormatDigits(KeepDigits(raw));
  }
}
