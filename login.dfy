/** The login form: the enabled-button test, the order in which `handleLogin`
    reports a missing field, and the field handlers that clear their own error. */
module LoginPage {
  import opened JsText

  const MSG_ID_REQUIRED: string := "아이디를 입력해주세요."
  const MSG_PASSWORD_REQUIRED: string := "비밀번호를 입력해주세요."
  const MSG_LOGIN_FAILED: string := "로그인 중 문제가 발생했습니다."

  /** `isFormValid`: both fields hold a non-whitespace character. */
  predicate FormValid(userId: string, password: string)
    ensures FormValid(userId, password) <==> Trim(userId) != "" && Trim(password) != ""
  {
    BlankIffTrimEmpty(userId);
    BlankIffTrimEmpty(password);
    !IsBlank(userId) && !IsBlank(password)
  }

  /** Stated on characters: the form is valid exactly when each field holds a
      character that is not whitespace. */
  lemma FormValidIff(userId: string, password: string)
    ensures FormValid(userId, password) <==>
      (exists i :: 0 <= i < |userId| && !IsWhitespace(userId[i]))
      && (exists j :: 0 <= j < |password| && !IsWhitespace(password[j]))
  {
    BlankIffTrimEmpty(userId);
    BlankIffTrimEmpty(password);
  }

  /** What `handleLogin` decides before submitting: the id is checked first. */
  datatype Verdict = MissingId | MissingPassword | Proceed

  function CheckFields(userId: string, password: string): (v: Verdict)
    ensures v == MissingId <==> IsBlank(userId)
    ensures v == MissingPassword <==> !IsBlank(userId) && IsBlank(password)
    ensures v == Proceed <==> FormValid(userId, password)
  {
    if IsBlank(userId) then MissingId
    else if IsBlank(password) then MissingPassword
    else Proceed
  }

  class LoginForm {
    var userId: string
    var password: string
    var showPassword: bool
    var idError: string
    var passwordError: string
    var isSubmitting: bool

    /** Between events no submission is in flight. */
    predicate Valid()
      reads this
    {
      !isSubmitting
    }

    constructor()
      ensures Valid()
      ensures userId == "" && password == "" && !showPassword
      ensures idError == "" && passwordError == ""
      ensures !IsFormValid()
    {
      userId := "";
      password := "";
      showPassword := false;
      idError := "";
      passwordError := "";
      isSubmitting := false;
    }

    predicate IsFormValid()
      reads this
    {
      FormValid(userId, password)
    }

    /** The submit button is enabled when the form is valid and idle. */
    predicate SubmitEnabled()
      reads this
    {
      IsFormValid() && !isSubmitting
    }

    /** `handleIdChange`: sets the id and clears only the id error. */
    method HandleIdChange(value: string)
      modifies this`userId, this`idError
      ensures userId == value && idError == ""
    {
      userId := value;
      idError := "";
    }

    /** `handlePasswordChange`: sets the password and clears only its error. */
    method HandlePasswordChange(value: string)
      modifies this`password, this`passwordError
      ensures password == value && passwordError == ""
    {
      password := value;
      passwordError := "";
    }

    /** The show/hide toggle. */
    method TogglePassword()
      modifies this`showPassword
      ensures showPassword == !old(showPassword)
    {
      showPassword := !showPassword;
    }

    /** `handleLogin`. `callbackThrows` says whether `onLoginSuccess` threw;
        `alert` is the message shown then. `verdict` is the field check made
        first, `called` says that `onLoginSuccess` ran and `succeeded` that it
        returned normally. */
    method HandleLogin(callbackThrows: bool)
      returns (verdict: Verdict, called: bool, succeeded: bool, alert: Option<string>)
      requires Valid()
      modifies this`idError, this`passwordError, this`isSubmitting
      ensures Valid()
      ensures verdict == CheckFields(userId, password)
      // the callback runs exactly when the form is valid
      ensures called <==> verdict == Proceed
      ensures succeeded <==> called && !callbackThrows
      ensures alert.Some? <==> called && callbackThrows
      ensures alert.Some? ==> alert.value == MSG_LOGIN_FAILED
      // a blank id is reported first, and alone
      ensures verdict == MissingId ==>
        idError == MSG_ID_REQUIRED && passwordError == old(passwordError)
      // a blank password is reported only after the id passed
      ensures verdict == MissingPassword ==>
        passwordError == MSG_PASSWORD_REQUIRED && idError == old(idError)
      ensures called ==> idError == old(idError) && passwordError == old(passwordError)
    {
      called, succeeded, alert := false, false, None;
      verdict := CheckFields(userId, password);
      match verdict
      case MissingId =>
        idError := MSG_ID_REQUIRED;
      case MissingPassword =>
        passwordError := MSG_PASSWORD_REQUIRED;
      case Proceed =>
        isSubmitting := true;
        called := true;
        if callbackThrows {
          alert := Some(MSG_LOGIN_FAILED);
        } else {
          succeeded := true;
        }
        isSubmitting := false;
    }
  }
}
