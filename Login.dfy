/** The phone-number login screen: a mainland phone number, a six-digit
    SMS code, agreement to the terms and a resend countdown. */
module Login {
  import opened Strings

  const PhoneLength: nat := 11
  const CodeLength: nat := 6
  const CountdownStart: nat := 60

  /** `isPhoneValid`: exactly eleven characters. */
  function IsPhoneValid(phone: string): (valid: bool)
    ensures valid <==> |phone| == PhoneLength
    ensures valid ==> SchemaPhoneOk(phone)
  {
    |phone| == PhoneLength
  }

  /** `buttonDisabled()`; despite its name it is true when the login may
      go ahead: terms agreed, a six-character code and a valid phone. */
  function ButtonDisabled(isAgreed: bool, phone: string, code: string): (ready: bool)
    ensures ready <==> isAgreed && |code| == CodeLength && IsPhoneValid(phone)
  {
    if !isAgreed then false else |code| == CodeLength && IsPhoneValid(phone)
  }

  /** The login button is disabled by the negation of `buttonDisabled()`. */
  function LoginButtonDisabled(isAgreed: bool, phone: string, code: string): (disabled: bool)
    ensures !disabled <==> isAgreed && |code| == CodeLength && |phone| == PhoneLength
    ensures !disabled ==> SchemaCodeOk(code) && SchemaPhoneOk(phone)
  {
    !ButtonDisabled(isAgreed, phone, code)
  }

  /** The send-code button waits for a valid phone and the end of the countdown. */
  function SendCodeDisabled(phone: string, countdown: int): (disabled: bool)
    ensures !disabled <==> |phone| == PhoneLength && countdown <= 0
  {
    !IsPhoneValid(phone) || countdown > 0
  }

  /** The form schema: a code of exactly six characters and a non-empty phone. */
  predicate SchemaCodeOk(code: string) { |code| == CodeLength }
  predicate SchemaPhoneOk(phone: string) { |phone| >= 1 }

  /** An enabled login button implies the schema accepts the form. */
  lemma EnabledLoginPassesSchema(isAgreed: bool, phone: string, code: string)
    requires !LoginButtonDisabled(isAgreed, phone, code)
    ensures SchemaCodeOk(code) && SchemaPhoneOk(phone) && IsPhoneValid(phone)
  {
  }

  /** What pressing the login button leads to. */
  datatype SubmitOutcome =
    | SchemaRejected(codeError: bool, phoneError: bool)
    | PhoneRejected
    | LoginRequested(phone: string, code: string)

  /** Where the screen goes after a login or on close. */
  datatype Navigation = Back | DismissTo(route: string) | ReplaceWith(route: string)

  /** After a successful login: back if there is somewhere to go back to,
      else the home screen. */
  function AfterLogin(canGoBack: bool): (nav: Navigation)
    ensures canGoBack <==> nav == Back
    ensures !canGoBack ==> nav == DismissTo("/")
  {
    if canGoBack then Back else DismissTo("/")
  }

  /** The close button: back if possible, else replace with the home screen. */
  function OnClose(canGoBack: bool): (nav: Navigation)
    ensures canGoBack <==> nav == Back
    ensures !canGoBack ==> nav == ReplaceWith("/")
  {
    if canGoBack then Back else ReplaceWith("/")
  }

  class Screen {
    var phone: string
    var code: string
    var isAgreed: bool
    var countdown: int
    var phoneError: bool
    var codeError: bool

    /** The countdown stays between zero and sixty. */
    ghost predicate Valid()
      reads this
    {
      0 <= countdown <= CountdownStart
    }

    constructor ()
      ensures Valid()
      ensures phone == "" && code == "" && !isAgreed && countdown == 0 && !phoneError && !codeError
    {
      phone := "";
      code := "";
      isAgreed := false;
      countdown := 0;
      phoneError := false;
      codeError := false;
    }

    /** Both inputs store the trimmed text. */
    method ChangePhone(text: string)
      modifies this`phone
      ensures phone == Trim(text)
    {
      phone := Trim(text);
    }

    method ChangeCode(text: string)
      modifies this`code
      ensures code == Trim(text)
    {
      code := Trim(text);
    }

    method ToggleAgreed()
      modifies this`isAgreed
      ensures isAgreed == !old(isAgreed)
    {
      isAgreed := !isAgreed;
    }

    /** A successful code send starts the sixty-second countdown. */
    method SendCodeSucceeded()
      requires Valid()
      modifies this`countdown
      ensures Valid() && countdown == CountdownStart
    {
      countdown := CountdownStart;
    }

    /** One interval tick, which only runs while the countdown is positive. */
    method Tick()
      requires Valid() && countdown > 0
      modifies this`countdown
      ensures Valid() && countdown == old(countdown) - 1
    {
      countdown := countdown - 1;
    }

    /** `loginForm.handleSubmit(submit)`: the schema is checked first; then
        `submit` refuses a missing or invalid phone with a phone error, and
        only otherwise asks for the login. */
    method Submit() returns (outcome: SubmitOutcome)
      modifies this`phoneError, this`codeError
      ensures !SchemaCodeOk(old(code)) || !SchemaPhoneOk(old(phone)) ==>
        outcome == SchemaRejected(!SchemaCodeOk(old(code)), !SchemaPhoneOk(old(phone)))
        && codeError == !SchemaCodeOk(old(code)) && phoneError == !SchemaPhoneOk(old(phone))
      ensures outcome.LoginRequested? <==> SchemaCodeOk(code) && IsPhoneValid(phone)
      ensures outcome.LoginRequested? ==> outcome == LoginRequested(phone, code) && |outcome.code| == CodeLength
      ensures outcome.PhoneRejected? ==> phoneError && !codeError
      ensures outcome.LoginRequested? ==> !phoneError && !codeError
    {
      if !SchemaCodeOk(code) || !SchemaPhoneOk(phone) {
        codeError := !SchemaCodeOk(code);
        phoneError := !SchemaPhoneOk(phone);
        return SchemaRejected(codeError, phoneError);
      }
      // A passing validation clears the form's errors before `submit` runs.
      codeError := false;
      phoneError := false;
      if phone == "" || !IsPhoneValid(phone) {
        phoneError := true;
        return PhoneRejected;
      }
      outcome := LoginRequested(phone, code);
    }
  }

  /** From a fresh send the countdown reaches zero after exactly sixty ticks. */
  method RunCountdown(s: Screen) returns (ticks: nat)
    requires s.Valid()
    modifies s
    ensures ticks == CountdownStart && s.countdown == 0 && s.Valid()
  {
    s.SendCodeSucceeded();
    ticks := 0;
    while s.countdown > 0
      invariant s.Valid()
      invariant s.countdown + ticks == CountdownStart
      decreases s.countdown
    {
      s.Tick();
      ticks := ticks + 1;
    }
  }
}
