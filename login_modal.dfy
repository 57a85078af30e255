/** The sign-in dialog: a two-step machine that first collects an email
    address and a ten-digit mobile number, asks for a one-time password to
    be sent, and then checks the six-character code typed back. */
module LoginModal {
  import opened Common

  datatype Step = Details | Otp

  /** The two inputs of the details form, told apart by their `name`. */
  datatype Field = Email | Phone

  const MaxPhoneDigits := 10
  const OtpLength := 6

  const MissingFieldsMessage := "Please fill in all fields."
  const SendFailedMessage := "Failed to send OTP. Please try again."
  const OtpLengthMessage := "Please enter the 6-digit OTP."
  const VerifiedMessage := "Verification successful!"
  const VerifyFailedMessage := "Verification failed. Please check the code and try again."

  /** The character class `[0-9]`. */
  predicate IsDigit(c: char) {
    '0' <= c <= '9'
  }

  predicate AllDigits(s: string) {
    forall i :: 0 <= i < |s| ==> IsDigit(s[i])
  }

  /** `String.prototype.length`: the number of UTF-16 code units, one for a
      code point up to U+FFFF and two (a surrogate pair) for one above it. */
  function Utf16Length(s: string): (n: nat)
    ensures |s| <= n <= 2 * |s|
  {
    if s == [] then 0 else Utf16Length(s[..|s| - 1]) + (if s[|s| - 1] > '\U{FFFF}' then 2 else 1)
  }

  /** For text in the Basic Multilingual Plane, digits among it, the length
      JavaScript reports is the number of characters. */
  lemma {:induction false} Utf16LengthOfBmp(s: string)
    requires forall i :: 0 <= i < |s| ==> s[i] <= '\U{FFFF}'
    ensures Utf16Length(s) == |s|
  {
    if s != [] {
      Utf16LengthOfBmp(s[..|s| - 1]);
    }
  }

  /** A character above U+FFFF counts twice: four digits and an emoji make a
      code of length 6, which the length check lets through. */
  lemma AstralCharCountsTwice()
    ensures |"1234\U{1F600}"| == 5 && Utf16Length("1234\U{1F600}") == OtpLength
  {
    var s := "1234\U{1F600}";
    Utf16LengthOfBmp(s[..4]);
    assert s[..4] == "1234";
  }

  /** `value.replace(/[^0-9]/g, '')`: the digits of `s`, in order. */
  function DigitsOnly(s: string): (r: string)
    ensures AllDigits(r)
    ensures |r| <= |s|
  {
    if s == [] then []
    else (if IsDigit(s[0]) then [s[0]] else []) + DigitsOnly(s[1..])
  }

  /** Filtering distributes over concatenation, so the digits of a longer
      input are the digits of its parts, in order. */
  lemma {:induction false} DigitsOnlyConcat(a: string, b: string)
    ensures DigitsOnly(a + b) == DigitsOnly(a) + DigitsOnly(b)
  {
    if a != [] {
      assert (a + b)[1..] == a[1..] + b;
      DigitsOnlyConcat(a[1..], b);
    } else {
      assert a + b == b;
    }
  }

  /** The filter leaves a string alone exactly when it is all digits. */
  lemma {:induction false} DigitsOnlyFixed(s: string)
    ensures DigitsOnly(s) == s <==> AllDigits(s)
  {
    if s != [] {
      DigitsOnlyFixed(s[1..]);
      if !IsDigit(s[0]) {
        assert |DigitsOnly(s)| < |s|;
      }
    }
  }

  /** Filtering twice is filtering once. */
  lemma DigitsOnlyIdempotent(s: string)
    ensures DigitsOnly(DigitsOnly(s)) == DigitsOnly(s)
  {
    DigitsOnlyFixed(DigitsOnly(s));
  }

  /** A stored phone number: digits only, at most ten of them. */
  predicate ValidPhone(phone: string) {
    AllDigits(phone) && |phone| <= MaxPhoneDigits
  }

  /** The component's state hooks. */
  class State {
    var step: Step
    var email: string
    var phone: string
    var otp: string
    var isLoading: bool
    var error: Option<string>
    var message: Option<string>

    ghost predicate Valid()
      reads this
    {
      ValidPhone(phone)
    }

    /** The initial values, which the close effect also restores. */
    ghost predicate Initial()
      reads this
    {
      step == Details && email == "" && phone == "" && otp == "" &&
      !isLoading && error == None && message == None
    }

    constructor ()
      ensures Valid() && Initial()
    {
      step := Details;
      email := "";
      phone := "";
      otp := "";
      isLoading := false;
      error := None;
      message := None;
    }

    /** `handleDetailsChange`. The phone field keeps only the digits typed
        and takes them only when there are at most ten; otherwise it keeps
        its old value. The email field takes the text as typed. */
    method DetailsChange(field: Field, value: string)
      requires Valid()
      modifies this
      ensures Valid()
      ensures field == Phone && |DigitsOnly(value)| <= MaxPhoneDigits ==> phone == DigitsOnly(value)
      ensures field == Phone && |DigitsOnly(value)| > MaxPhoneDigits ==> phone == old(phone)
      ensures field == Phone ==> email == old(email)
      ensures field == Email ==> email == value && phone == old(phone)
      ensures step == old(step) && otp == old(otp) && isLoading == old(isLoading)
      ensures error == old(error) && message == old(message)
    {
      match field {
        case Phone =>
          var numeric := DigitsOnly(value);
          if |numeric| <= MaxPhoneDigits {
            phone := numeric;
          }
        case Email =>
          email := value;
      }
    }

    /** The OTP input's `onChange`: the code is stored as typed. */
    method OtpChange(value: string)
      requires Valid()
      modifies this
      ensures Valid()
      ensures otp == value
      ensures step == old(step) && email == old(email) && phone == old(phone)
      ensures isLoading == old(isLoading) && error == old(error) && message == old(message)
    {
      otp := value;
    }

    /** `handleSendOtp` up to its `await`. With either field empty the error
        is set and the step stays where it was; otherwise loading starts,
        error and message are cleared and the details are what is sent. */
    method SendOtp() returns (sent: Option<(string, string)>)
      requires Valid()
      modifies this
      ensures Valid()
      ensures old(email) == "" || old(phone) == "" ==>
        sent == None && error == Some(MissingFieldsMessage) &&
        isLoading == old(isLoading) && message == old(message)
      ensures old(email) != "" && old(phone) != "" ==>
        sent == Some((old(email), old(phone))) && isLoading && error == None && message == None
      ensures step == old(step) && email == old(email) && phone == old(phone) && otp == old(otp)
    {
      if email == "" || phone == "" {
        error := Some(MissingFieldsMessage);
        return None;
      }
      isLoading := true;
      error := None;
      message := None;
      sent := Some((email, phone));
    }

    /** The rest of `handleSendOtp`. Sent: the server's message is shown and
        the dialog moves to the code step. Failed: the exception's message, or
        the fixed one when it is empty, is shown and the step stays. */
    method SettleSendOtp(outcome: CallOutcome<string>)
      requires Valid()
      modifies this
      ensures Valid()
      ensures !isLoading
      ensures outcome.Returned? ==> step == Otp && message == Some(outcome.value) && error == old(error)
      ensures outcome.Threw? ==>
        step == old(step) && message == old(message) && error == Some(OrElse(outcome.message, SendFailedMessage))
      ensures email == old(email) && phone == old(phone) && otp == old(otp)
    {
      match outcome {
        case Returned(serverMessage) =>
          message := Some(serverMessage);
          step := Otp;
        case Threw(_, thrown) =>
          error := Some(OrElse(thrown, SendFailedMessage));
      }
      isLoading := false;
    }

    /** `handleVerifyOtp` up to its `await`: only a code whose `length` is
        exactly six UTF-16 code units is sent, with the email it belongs to. */
    method VerifyOtp() returns (sent: Option<(string, string)>)
      requires Valid()
      modifies this
      ensures Valid()
      ensures Utf16Length(old(otp)) != OtpLength ==>
        sent == None && error == Some(OtpLengthMessage) && isLoading == old(isLoading)
      ensures Utf16Length(old(otp)) == OtpLength ==>
        sent == Some((old(email), old(otp))) && isLoading && error == None
      ensures step == old(step) && email == old(email) && phone == old(phone) && otp == old(otp)
      ensures message == old(message)
    {
      if Utf16Length(otp) != OtpLength {
        error := Some(OtpLengthMessage);
        return None;
      }
      isLoading := true;
      error := None;
      sent := Some((email, otp));
    }

    /** The rest of `handleVerifyOtp`. On success the fixed message is shown
        and the caller's success callback is scheduled (the result is true);
        on failure the exception's message, or the fixed one, is shown. */
    method SettleVerify(outcome: CallOutcome<()>) returns (succeeded: bool)
      requires Valid()
      modifies this
      ensures Valid()
      ensures !isLoading
      ensures succeeded <==> outcome.Returned?
      ensures outcome.Returned? ==> message == Some(VerifiedMessage) && error == old(error)
      ensures outcome.Threw? ==>
        message == old(message) && error == Some(OrElse(outcome.message, VerifyFailedMessage))
      ensures step == old(step) && email == old(email) && phone == old(phone) && otp == old(otp)
    {
      match outcome {
        case Returned(_) =>
          message := Some(VerifiedMessage);
          succeeded := true;
        case Threw(_, thrown) =>
          error := Some(OrElse(thrown, VerifyFailedMessage));
          succeeded := false;
      }
      isLoading := false;
    }

    /** The Back button: returns to the details step, keeping what was typed. */
    method Back()
      requires Valid()
      modifies this
      ensures Valid()
      ensures step == Details
      ensures email == old(email) && phone == old(phone) && otp == old(otp)
      ensures isLoading == old(isLoading) && error == old(error) && message == old(message)
    {
      step := Details;
    }

    /** The timer the close effect starts: every field returns to its
        initial value. */
    method CloseReset()
      modifies this
      ensures Valid() && Initial()
    {
      step := Details;
      email := "";
      phone := "";
      otp := "";
      error := None;
      message := None;
      isLoading := false;
    }
  }

  /** A separator typed in front of a valid number is dropped: the filter
      gives back exactly the digits that were there. */
  lemma PhoneKeepsTypedDigits(typed: string, separator: char)
    requires ValidPhone(typed) && !IsDigit(separator)
    ensures DigitsOnly([separator] + typed) == typed
  {
    DigitsOnlyConcat([separator], typed);
    DigitsOnlyFixed(typed);
  }
}
