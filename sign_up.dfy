/** The sign-up screen's submit handler: three checks in a fixed order,
    then the account creation, whose outcome is an input here. */
module SignUp {
  import opened Wrappers
  import opened Alert
  import opened Text

  const MinPasswordLength := 8
  const ErrorTitle := "Error"
  const EmailMismatchText := "Email addresses do not match"
  const PasswordMismatchText := "Passwords do not match"
  const ShortPasswordText := "Password must be 8+ characters"
  const FallbackErrorText := "An error occurred"

  /** Which check stops the submission, if any. */
  datatype Verdict = NotLoaded | EmailMismatch | PasswordMismatch | PasswordTooShort | Accepted

  /** The early-return checks of the handler, in source order. */
  function Validate(isLoaded: bool, email: string, confirmEmail: string,
                    password: string, confirmPassword: string): (v: Verdict)
    ensures v == NotLoaded <==> !isLoaded
    ensures v == EmailMismatch <==> isLoaded && email != confirmEmail
    ensures v == PasswordMismatch <==> isLoaded && email == confirmEmail && password != confirmPassword
    ensures v == PasswordTooShort <==>
      isLoaded && email == confirmEmail && password == confirmPassword && Utf16Length(password) < MinPasswordLength
    ensures v == Accepted <==>
      isLoaded && email == confirmEmail && password == confirmPassword && Utf16Length(password) >= MinPasswordLength
  {
    if !isLoaded then NotLoaded
    else if email != confirmEmail then EmailMismatch
    else if password != confirmPassword then PasswordMismatch
    else if Utf16Length(password) < MinPasswordLength then PasswordTooShort
    else Accepted
  }

  /** A mismatch of the emails is reported whatever the passwords are. */
  lemma EmailCheckComesFirst(email: string, confirmEmail: string, p1: string, c1: string, p2: string, c2: string)
    requires email != confirmEmail
    ensures Validate(true, email, confirmEmail, p1, c1) == Validate(true, email, confirmEmail, p2, c2) == EmailMismatch
  {
  }

  /** The password length is only looked at for a password that matches its confirmation. */
  lemma LengthCheckNeedsMatch(email: string, password: string, confirmPassword: string)
    requires password != confirmPassword
    ensures Validate(true, email, email, password, confirmPassword) == PasswordMismatch
  {
  }

  /** The length check counts UTF-16 code units: four emoji make an
      eight-unit password, which is accepted. */
  lemma FourEmojiPasswordAccepted(email: string)
    ensures Validate(true, email, email, "\U{1F600}\U{1F600}\U{1F600}\U{1F600}",
                     "\U{1F600}\U{1F600}\U{1F600}\U{1F600}") == Accepted
  {
    var p := "\U{1F600}\U{1F600}\U{1F600}\U{1F600}";
    assert p[1..][1..][1..][1..] == [];
    assert Utf16Length(p[1..][1..][1..]) == 2;
    assert Utf16Length(p[1..][1..]) == 4;
    assert Utf16Length(p[1..]) == 6;
  }

  /** A password of Basic Multilingual Plane characters is too short exactly
      when it has fewer than eight characters. */
  lemma BmpPasswordLength(email: string, password: string)
    requires forall i :: 0 <= i < |password| ==> password[i] as int < 0x1_0000
    ensures Validate(true, email, email, password, password) == PasswordTooShort <==> |password| < MinPasswordLength
  {
    Utf16LengthOfBmp(password);
  }

  /** What the account-creation calls did: both succeeded, or one threw an
      error carrying the list `errors` (absent when the thrown value has
      none), each entry with an optional message. */
  datatype Attempt = Created | Rejected(errors: Option<seq<Option<string>>>)

  /** `err.errors[0]?.message || "An error occurred"`. */
  function FailureText(errors: seq<Option<string>>): (r: string)
    ensures r != ""
    ensures r != FallbackErrorText ==> |errors| > 0 && errors[0] == Some(r)
    ensures |errors| > 0 && errors[0].Some? && errors[0].value != "" ==> r == errors[0].value
  {
    if |errors| > 0 && errors[0].Some? && errors[0].value != "" then errors[0].value else FallbackErrorText
  }

  /** Only the first error is ever shown. */
  lemma OnlyFirstErrorShown(first: Option<string>, later: seq<Option<string>>, other: seq<Option<string>>)
    ensures FailureText([first] + later) == FailureText([first] + other)
  {
  }

  class SignUpScreen {
    var emailAddress: string
    var confirmEmailAddress: string
    var password: string
    var confirmPassword: string
    var passwordError: string
    var pendingVerification: bool
    var loading: bool
    const alerts: AlertStore

    /** The form as first rendered, sharing the given alert store. */
    constructor(store: AlertStore)
      ensures alerts == store
      ensures emailAddress == confirmEmailAddress == password == confirmPassword == passwordError == ""
      ensures !pendingVerification && !loading
    {
      alerts := store;
      emailAddress, confirmEmailAddress, password, confirmPassword := "", "", "", "";
      passwordError := "";
      pendingVerification, loading := false, false;
    }

    /** The handler up to the remote call: runs the checks and, when they
        pass, clears the password error and raises `loading`. */
    method BeginSignUp(isLoaded: bool) returns (proceed: bool)
      modifies this, alerts
      ensures var v := Validate(isLoaded, old(emailAddress), old(confirmEmailAddress),
                                old(password), old(confirmPassword));
        proceed <==> v == Accepted
      ensures emailAddress == old(emailAddress) && confirmEmailAddress == old(confirmEmailAddress)
      ensures password == old(password) && confirmPassword == old(confirmPassword)
      ensures pendingVerification == old(pendingVerification)
      ensures !isLoaded ==> unchanged(this) && unchanged(alerts)
      ensures isLoaded && emailAddress != confirmEmailAddress ==>
        unchanged(this) && alerts.State() == Shown(old(alerts.State()), ErrorTitle, EmailMismatchText, NoOp)
      ensures isLoaded && emailAddress == confirmEmailAddress && password != confirmPassword ==>
        unchanged(this) && alerts.State() == Shown(old(alerts.State()), ErrorTitle, PasswordMismatchText, NoOp)
      ensures isLoaded && emailAddress == confirmEmailAddress && password == confirmPassword ==>
        unchanged(alerts)
      ensures isLoaded && emailAddress == confirmEmailAddress && password == confirmPassword &&
              Utf16Length(password) < MinPasswordLength ==>
        passwordError == ShortPasswordText && loading == old(loading)
      ensures proceed ==> passwordError == "" && loading
    {
      if !isLoaded {
        return false;
      }
      if emailAddress != confirmEmailAddress {
        alerts.ShowAlert(ErrorTitle, EmailMismatchText, NoOp);
        return false;
      }
      if password != confirmPassword {
        alerts.ShowAlert(ErrorTitle, PasswordMismatchText, NoOp);
        return false;
      }
      if Utf16Length(password) < MinPasswordLength {
        passwordError := ShortPasswordText;
        return false;
      } else {
        passwordError := "";
      }
      loading := true;
      return true;
    }

    /** The handler after the remote call: success moves to the
        verification step; a failure shows its first message. A failure
        without an `errors` list makes the handler itself throw before any
        alert. `loading` is reset in every case. */
    method FinishSignUp(attempt: Attempt) returns (threw: bool)
      modifies this, alerts
      ensures threw <==> attempt.Rejected? && attempt.errors.None?
      ensures !loading
      ensures emailAddress == old(emailAddress) && confirmEmailAddress == old(confirmEmailAddress)
      ensures password == old(password) && confirmPassword == old(confirmPassword)
      ensures passwordError == old(passwordError)
      ensures attempt.Created? ==> pendingVerification && unchanged(alerts)
      ensures attempt.Rejected? ==> pendingVerification == old(pendingVerification)
      ensures attempt.Rejected? && attempt.errors.Some? ==>
        alerts.State() == Shown(old(alerts.State()), ErrorTitle, FailureText(attempt.errors.value), NoOp)
      ensures threw ==> unchanged(alerts)
    {
      threw := false;
      match attempt {
        case Created =>
          pendingVerification := true;
        case Rejected(errors) =>
          if errors.Some? {
            alerts.ShowAlert(ErrorTitle, FailureText(errors.value), NoOp);
          } else {
            threw := true;
          }
      }
      loading := false;
    }

    /** The whole handler: the checks, then the attempt when they pass. */
    method OnSignUpPress(isLoaded: bool, attempt: Attempt) returns (attempted: bool, threw: bool)
      modifies this, alerts
      ensures var v := Validate(isLoaded, old(emailAddress), old(confirmEmailAddress),
                                old(password), old(confirmPassword));
        && (attempted <==> v == Accepted)
        && (v == NotLoaded ==> unchanged(this) && unchanged(alerts))
        && (v == EmailMismatch ==>
              unchanged(this) && alerts.State() == Shown(old(alerts.State()), ErrorTitle, EmailMismatchText, NoOp))
        && (v == PasswordMismatch ==>
              unchanged(this) && alerts.State() == Shown(old(alerts.State()), ErrorTitle, PasswordMismatchText, NoOp))
        && (v == PasswordTooShort ==>
              passwordError == ShortPasswordText && loading == old(loading) && unchanged(alerts))
      ensures threw <==> attempted && attempt.Rejected? && attempt.errors.None?
      ensures attempted ==> !loading && passwordError == ""
      ensures !attempted ==> loading == old(loading) && pendingVerification == old(pendingVerification)
      ensures attempted && attempt.Created? ==> pendingVerification && unchanged(alerts)
      ensures attempted && attempt.Rejected? ==> pendingVerification == old(pendingVerification)
      ensures attempted && attempt.Rejected? && attempt.errors.Some? ==>
        alerts.State() == Shown(old(alerts.State()), ErrorTitle, FailureText(attempt.errors.value), NoOp)
      ensures attempted && threw ==> unchanged(alerts)
      ensures emailAddress == old(emailAddress) && confirmEmailAddress == old(confirmEmailAddress)
      ensures password == old(password) && confirmPassword == old(confirmPassword)
    {
      attempted := BeginSignUp(isLoaded);
      threw := false;
      if attempted {
        threw := FinishSignUp(attempt);
      }
    }
  }
}
