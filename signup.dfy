/** The four-step sign-up form: role, then the inputs of steps 1 to 3, with a
    "next" button gated per step. The registration call itself is commented out
    in the page, so a completed form only reports success. */
module SignUp {
  import opened JsText

  const MSG_PASSWORD_LENGTH: string := "비밀번호는 8자리 이상이어야 합니다."
  const MSG_PASSWORD_SPECIAL: string := "특수문자를 포함해야 합니다."
  const MSG_PASSWORD_MISMATCH: string := "비밀번호가 일치하지 않습니다."
  const MSG_ID_EMPTY: string := "아이디를 입력해주세요."
  const MSG_ID_SHORT: string := "아이디는 2자 이상이어야 합니다."
  const MSG_ID_UNCHECKED: string := "아이디 중복 확인을 해주세요."

  /** The character class `[!@#$%^&*(),.?":{}|<>]`. */
  predicate IsSpecial(c: char) {
    c in {'!', '@', '#', '$', '%', '^', '&', '*', '(', ')', ',', '.', '?', '"', ':', '{', '}',
          '|', '<', '>'}
  }

  predicate HasSpecial(s: string) {
    exists i :: 0 <= i < |s| && IsSpecial(s[i])
  }

  /** The password policy: at least eight characters, one of them special. */
  predicate MeetsPolicy(p: string) {
    |p| >= 8 && HasSpecial(p)
  }

  /** `validatePassword(pass)`: no message exactly when the policy holds; a short
      password gets the length message even when it also lacks a special character. */
  function ValidatePassword(p: string): (r: string)
    ensures r == "" <==> MeetsPolicy(p)
    ensures |p| < 8 ==> r == MSG_PASSWORD_LENGTH
    ensures |p| >= 8 && !HasSpecial(p) ==> r == MSG_PASSWORD_SPECIAL
  {
    if |p| < 8 then MSG_PASSWORD_LENGTH
    else if !HasSpecial(p) then MSG_PASSWORD_SPECIAL
    else ""
  }

  /** The confirmation message both change handlers set. */
  function ConfirmError(password: string, confirm: string): (r: string)
    ensures r != "" <==> confirm != "" && confirm != password
    ensures r == "" || r == MSG_PASSWORD_MISMATCH
  {
    if confirm != "" && confirm != password then MSG_PASSWORD_MISMATCH else ""
  }

  /** The inputs the page renders. */
  datatype Input = RoleCards | SchoolInput | IdInput | IdCheckButton | PasswordInput | ConfirmInput

  /** What `renderStepContent` shows at each step: step 1 asks for the school (bound
      to `nickname`), step 2 for the id, and every later step for the password. */
  function RenderedInputs(step: int): (r: set<Input>)
    ensures (IdInput in r || IdCheckButton in r) <==> step == 2
  {
    if step == 0 then {RoleCards}
    else if step == 1 then {SchoolInput}
    else if step == 2 then {IdInput, IdCheckButton}
    else {PasswordInput, ConfirmInput}
  }

  /** One thing the user can do on the page. */
  datatype UiEvent =
    | ChooseRole(role: string)
    | TypeSchool(school: string)
    | TypeId(id: string)
    | CheckId
    | TypePassword(password: string)
    | TypeConfirm(confirm: string)
    | Submit

  /** The input an event needs on screen; the submit button is always there. */
  function InputOf(e: UiEvent): Option<Input> {
    match e
    case ChooseRole(_) => Some(RoleCards)
    case TypeSchool(_) => Some(SchoolInput)
    case TypeId(_) => Some(IdInput)
    case CheckId => Some(IdCheckButton)
    case TypePassword(_) => Some(PasswordInput)
    case TypeConfirm(_) => Some(ConfirmInput)
    case Submit => None
  }

  class SignUpForm {
    var currentStep: int
    var role: string
    var userId: string
    var password: string
    var passwordConfirm: string
    var nickname: string
    var passwordError: string
    var passwordConfirmError: string
    var idError: string
    var isIdValid: bool
    var isIdChecked: bool
    var isSubmitting: bool

    /** What holds between events. An id is valid only after a successful check of
        the current id; the confirmation message is set exactly on a mismatch; the
        password message is the policy's verdict once a password was typed. */
    predicate Valid()
      reads this
    {
      0 <= currentStep <= 3
      && (isIdValid ==> isIdChecked && |userId| >= 2 && !IsBlank(userId))
      && passwordConfirmError == ConfirmError(password, passwordConfirm)
      && (passwordError == ValidatePassword(password) || (password == "" && passwordError == ""))
      && !isSubmitting
    }

    /** `isPasswordValid`. */
    predicate PasswordValid()
      reads this
      ensures PasswordValid() ==> ValidatePassword(password) == "" && ValidatePassword(passwordConfirm) == ""
                                  && ConfirmError(password, passwordConfirm) == ""
    {
      |password| >= 8 && HasSpecial(password) && password == passwordConfirm
      && |passwordConfirm| > 0 && passwordError == "" && passwordConfirmError == ""
    }

    /** `canSubmit`: the gate of the current step. */
    predicate CanSubmit()
      reads this
      ensures CanSubmit() ==> 0 <= currentStep <= 3
      ensures CanSubmit() && currentStep == 2 ==> ValidatePassword(password) == ""
      ensures CanSubmit() && currentStep == 3 ==> Trim(nickname) != ""
    {
      BlankIffTrimEmpty(nickname);
      if currentStep == 0 then role != ""
      else if currentStep == 1 then isIdValid
      else if currentStep == 2 then PasswordValid()
      else if currentStep == 3 then !IsBlank(nickname)
      else false
    }

    /** In every state the handlers reach, the password gate is the policy plus a
        matching, non-empty confirmation: the two error strings add nothing. */
    lemma PasswordValidIff()
      requires Valid()
      ensures PasswordValid() <==>
                (MeetsPolicy(password) && password == passwordConfirm && passwordConfirm != "")
    {
    }

    constructor()
      ensures Valid()
      ensures currentStep == 0 && role == "" && userId == "" && password == ""
      ensures passwordConfirm == "" && nickname == ""
      ensures passwordError == "" && passwordConfirmError == "" && idError == ""
      ensures !isIdValid && !isIdChecked && !isSubmitting
    {
      currentStep := 0;
      role := "";
      userId := "";
      password := "";
      passwordConfirm := "";
      nickname := "";
      passwordError := "";
      passwordConfirmError := "";
      idError := "";
      isIdValid := false;
      isIdChecked := false;
      isSubmitting := false;
    }

    /** A role card's click handler. */
    method SelectRole(r: string)
      requires Valid()
      modifies this`role
      ensures Valid() && role == r
    {
      role := r;
    }

    /** The school input of step 1, which writes `nickname`. */
    method SetNickname(v: string)
      requires Valid()
      modifies this`nickname
      ensures Valid() && nickname == v
    {
      nickname := v;
    }

    /** `checkIdDuplicate()`: a format check only; the server lookup is not wired. */
    method CheckIdDuplicate()
      requires Valid()
      modifies this`idError, this`isIdValid, this`isIdChecked
      ensures Valid()
      ensures IsBlank(userId) ==>
        idError == MSG_ID_EMPTY && isIdValid == old(isIdValid) && isIdChecked == old(isIdChecked)
      ensures !IsBlank(userId) && |userId| < 2 ==>
        idError == MSG_ID_SHORT && !isIdValid && isIdChecked == old(isIdChecked)
      ensures !IsBlank(userId) && |userId| >= 2 ==> idError == "" && isIdValid && isIdChecked
    {
      var blank := IsBlank(userId);
      if blank {
        idError := MSG_ID_EMPTY;
        return;
      }
      if |userId| < 2 {
        idError := MSG_ID_SHORT;
        isIdValid := false;
        return;
      }
      idError := "";
      isIdValid := true;
      isIdChecked := true;
    }

    /** `handleIdChange`: a new id must be checked again. */
    method HandleIdChange(v: string)
      requires Valid()
      modifies this`userId, this`isIdChecked, this`isIdValid, this`idError
      ensures Valid()
      ensures userId == v && !isIdChecked && !isIdValid && idError == ""
    {
      userId := v;
      isIdChecked := false;
      isIdValid := false;
      idError := "";
    }

    /** `handlePasswordChange`: re-validate, and re-compare with the confirmation. */
    method HandlePasswordChange(v: string)
      requires Valid()
      modifies this`password, this`passwordError, this`passwordConfirmError
      ensures Valid()
      ensures password == v && passwordError == ValidatePassword(v)
      ensures passwordConfirmError != "" <==> passwordConfirm != "" && v != passwordConfirm
    {
      password := v;
      passwordError := ValidatePassword(v);
      if passwordConfirm != "" && v != passwordConfirm {
        passwordConfirmError := MSG_PASSWORD_MISMATCH;
      } else {
        passwordConfirmError := "";
      }
    }

    /** `handlePasswordConfirmChange`. */
    method HandlePasswordConfirmChange(v: string)
      requires Valid()
      modifies this`passwordConfirm, this`passwordConfirmError
      ensures Valid()
      ensures passwordConfirm == v
      ensures passwordConfirmError != "" <==> v != "" && v != password
    {
      passwordConfirm := v;
      if v != "" && v != password {
        passwordConfirmError := MSG_PASSWORD_MISMATCH;
      } else {
        passwordConfirmError := "";
      }
    }

    /** `handleNext`: the form's submit handler. It is written for any state; in the
        states the handlers reach (`Valid`) a step-1 submit always advances, since a
        valid id is a checked, non-blank one. */
    method HandleNext() returns (signedUp: bool)
      modifies this`currentStep, this`idError, this`isSubmitting
      ensures old(Valid()) ==> Valid()
      ensures isSubmitting == old(isSubmitting)
      // a closed gate or a pending submit: nothing happens
      ensures !old(CanSubmit()) || old(isSubmitting) ==>
        !signedUp && currentStep == old(currentStep) && idError == old(idError)
      // steps only move forward by one, and only through an open gate
      ensures currentStep == old(currentStep)
              || (currentStep == old(currentStep) + 1 && old(CanSubmit()) && old(currentStep) < 3)
      ensures old(CanSubmit()) && !old(isSubmitting) && old(currentStep) == 0 ==> currentStep == 1
      ensures old(CanSubmit()) && !old(isSubmitting) && old(currentStep) == 1 ==>
        if IsBlank(userId) then currentStep == 1 && idError == MSG_ID_EMPTY
        else if !isIdChecked then currentStep == 1 && idError == MSG_ID_UNCHECKED
        else currentStep == 2 && idError == old(idError)
      ensures old(Valid()) && old(CanSubmit()) && old(currentStep) == 1 ==> currentStep == 2
      ensures old(CanSubmit()) && !old(isSubmitting) && old(currentStep) == 2 ==> currentStep == 3
      // only a step-3 submit with a non-blank nickname completes the sign-up
      ensures signedUp <==> old(CanSubmit()) && !old(isSubmitting) && old(currentStep) == 3
      ensures signedUp ==> !IsBlank(nickname) && currentStep == 3
    {
      if !CanSubmit() || isSubmitting {
        return false;
      }
      if currentStep == 0 {
        currentStep := 1;
        return false;
      }
      if currentStep == 1 {
        if IsBlank(userId) {
          idError := MSG_ID_EMPTY;
          return false;
        }
        if !isIdChecked {
          idError := MSG_ID_UNCHECKED;
          return false;
        }
        currentStep := 2;
        return false;
      }
      if currentStep == 2 {
        if PasswordValid() {
          currentStep := 3;
        }
        return false;
      }
      signedUp := false;
      if currentStep == 3 {
        if IsBlank(nickname) {
          return false;
        }
        isSubmitting := true;
        signedUp := true;
        isSubmitting := false;
      }
    }

    /** One user action on the rendered page: an event whose input is not on screen
        at the current step cannot happen and changes nothing. As rendered, the id
        input first appears at step 2 while step 1 only opens for a valid id, so a
        form that has not yet validated an id never leaves step 1. */
    method Interact(e: UiEvent) returns (signedUp: bool)
      requires Valid()
      modifies this`currentStep, this`role, this`userId, this`password, this`passwordConfirm
      modifies this`nickname, this`passwordError, this`passwordConfirmError, this`idError
      modifies this`isIdValid, this`isIdChecked, this`isSubmitting
      ensures Valid()
      ensures InputOf(e).Some? && InputOf(e).value !in RenderedInputs(old(currentStep)) ==>
        !signedUp && currentStep == old(currentStep) && isIdValid == old(isIdValid)
      ensures old(currentStep) <= 1 && !old(isIdValid) ==>
        currentStep <= 1 && !isIdValid && !signedUp
    {
      if InputOf(e).Some? && InputOf(e).value !in RenderedInputs(currentStep) {
        return false;
      }
      signedUp := false;
      match e {
        case ChooseRole(r) => SelectRole(r);
        case TypeSchool(v) => SetNickname(v);
        case TypeId(v) => HandleIdChange(v);
        case CheckId => CheckIdDuplicate();
        case TypePassword(v) => HandlePasswordChange(v);
        case TypeConfirm(v) => HandlePasswordConfirmChange(v);
        case Submit => signedUp := HandleNext();
      }
    }
  }
}
