/**
 * The pure parts of the reset-password page: the OTP input sanitiser, the
 * submit handler's validation gates, the submit button's disabled state and
 * the resend handler's email gate.
 */
module ResetPassword {
  import opened Text

  /** The number of digits an OTP has. */
  const OtpLength: nat := 6

  /** The shortest password the page accepts. */
  const MinPasswordLength: nat := 6

  /** The OTP field's change handler: strip every non-digit, then keep the first six characters. */
  function SanitizeOtp(input: string): (r: string)
    ensures AllDigits(r)
    ensures |r| == if |Digits(input)| < OtpLength then |Digits(input)| else OtpLength
    ensures r == Digits(input)[..|r|]
  {
    Take(Digits(input), OtpLength)
  }

  /** Sanitising a sanitised value changes nothing. */
  lemma SanitizeOtpIdempotent(input: string)
    ensures SanitizeOtp(SanitizeOtp(input)) == SanitizeOtp(input)
  {
    DigitsOfDigits(SanitizeOtp(input));
  }

  /** Typing a non-digit anywhere leaves the sanitised value as it was. */
  lemma SanitizeOtpIgnoresNonDigit(before: string, c: char, after: string)
    requires !IsDigit(c)
    ensures SanitizeOtp(before + [c] + after) == SanitizeOtp(before + after)
  {
    DigitsAppend(before + [c], after);
    DigitsAppend(before, [c]);
    DigitsAppend(before, after);
    DigitsOfNonDigits([c]);
  }

  /** Up to six digits typed in order are kept exactly. */
  lemma SanitizeOtpKeepsShortCode(code: string)
    requires AllDigits(code) && |code| <= OtpLength
    ensures SanitizeOtp(code) == code
  {
    DigitsOfDigits(code);
  }

  /** Once six digits are in, digits typed later are dropped. */
  lemma SanitizeOtpDropsExtraDigits(first: string, rest: string)
    requires |Digits(first)| >= OtpLength
    ensures SanitizeOtp(first + rest) == SanitizeOtp(first)
  {
    DigitsAppend(first, rest);
    var d := Digits(first) + Digits(rest);
    assert d[..OtpLength] == Digits(first)[..OtpLength];
  }

  /** What pressing submit does: one of the two alerts, or the reset request. */
  datatype SubmitOutcome =
    | PasswordsDiffer
    | PasswordTooShort
    | SendReset(email: string, otp: string, newPassword: string)

  /** The submit handler's gates, in their order: equality first, then length. */
  function HandleSubmit(email: string, otp: string, newPassword: string, confirmPassword: string): (r: SubmitOutcome)
    ensures newPassword != confirmPassword ==> r == PasswordsDiffer
    ensures newPassword == confirmPassword && |newPassword| < MinPasswordLength ==> r == PasswordTooShort
    ensures r.SendReset? <==> newPassword == confirmPassword && |newPassword| >= MinPasswordLength
    ensures r.SendReset? ==> r == SendReset(email, otp, newPassword)
  {
    if newPassword != confirmPassword then PasswordsDiffer
    else if |newPassword| < MinPasswordLength then PasswordTooShort
    else SendReset(email, otp, newPassword)
  }

  /** The submit button is disabled while a request is in flight or while the passwords differ. */
  predicate SubmitDisabled(loading: bool, newPassword: string, confirmPassword: string)
  {
    loading || newPassword != confirmPassword
  }

  /** Through an enabled button the mismatch alert can never be reached; only the length gate remains. */
  lemma EnabledSubmitNeverMismatches(email: string, otp: string, newPassword: string, confirmPassword: string)
    requires !SubmitDisabled(false, newPassword, confirmPassword)
    ensures HandleSubmit(email, otp, newPassword, confirmPassword) != PasswordsDiffer
    ensures HandleSubmit(email, otp, newPassword, confirmPassword).SendReset?
        <==> |newPassword| >= MinPasswordLength
  {
  }

  /** The inline mismatch notice shows only when both fields are filled and differ. */
  predicate ShowMismatchNotice(newPassword: string, confirmPassword: string)
  {
    |newPassword| > 0 && |confirmPassword| > 0 && newPassword != confirmPassword
  }

  /** Whenever the mismatch notice shows, the submit button is disabled. */
  lemma MismatchNoticeDisablesSubmit(loading: bool, newPassword: string, confirmPassword: string)
    requires ShowMismatchNotice(newPassword, confirmPassword)
    ensures SubmitDisabled(loading, newPassword, confirmPassword)
  {
  }

  /** What pressing "Resend OTP" does. */
  datatype ResendOutcome = AskForEmail | SendResend(email: string)

  /** The resend handler: an empty email field only raises an alert. */
  function HandleResend(email: string): (r: ResendOutcome)
    ensures r.SendResend? <==> |email| > 0
    ensures r.SendResend? ==> r.email == email
  {
    if |email| == 0 then AskForEmail else SendResend(email)
  }
}
