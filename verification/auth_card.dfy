/**
 * The login / register card: the rule that enables the submit button, the
 * field-by-field validation and the submit handler. Sign-in itself is a
 * call into Firebase, modelled by its outcome; the notifications and the
 * navigation are recorded.
 */
module AuthCard {
  import opened Wrappers
  import opened Text

  datatype Mode = Login | Register

  const EmailError := "Formato de email inválido"
  const PasswordError := "La contraseña debe tener al menos 6 caracteres"
  const ConfirmError := "Las contraseñas no coinciden"
  const AuthFailed := "Error al autenticar"

  /** `isFilled`: the submit button is enabled. */
  predicate IsFilled(mode: Mode, email: string, password: string, confirm: string)
  {
    email != "" && password != "" && (mode == Login || confirm != "")
  }

  /**
   * `/\S+@\S+\.\S+/.test(email)`: somewhere in the text, a non-space
   * character, `@`, one or more non-space characters, `.`, and a non-space
   * character. The expression is not anchored.
   */
  predicate EmailMatches(s: string)
  {
    exists at: nat, dot: nat | at < dot < |s| :: AddressAt(s, at, dot)
  }

  /** A match whose `@` is at `at` and whose `.` is at `dot`. */
  predicate AddressAt(s: string, at: nat, dot: nat)
  {
    && 0 < at && at + 1 < dot && dot + 1 < |s|
    && s[at] == '@' && s[dot] == '.'
    && !IsSpace(s[at - 1]) && !IsSpace(s[dot + 1])
    && forall k | at < k < dot :: !IsSpace(s[k])
  }

  /** Surrounding text does not matter, but a space inside the address does. */
  lemma EmailExamples()
    ensures EmailMatches("a@b.c")
    ensures EmailMatches("see x@y.z now")
    ensures !EmailMatches("a@b")
    ensures !EmailMatches("a @b.c")
  {
    assert AddressAt("a@b.c", 1, 3);
    assert AddressAt("see x@y.z now", 5, 7);
    forall at: nat, dot: nat ensures !AddressAt("a@b", at, dot) {
    }
    var u := "a @b.c";
    forall at: nat, dot: nat ensures !AddressAt(u, at, dot) {
      if 0 < at < |u| && u[at] == '@' {
        assert at == 2;
      }
    }
  }

  /** The error message of each field, if any. */
  datatype Errors = Errors(email: Option<string>, password: Option<string>, confirm: Option<string>)

  const NoErrors := Errors(None, None, None)

  /**
   * The errors `validate` records: an email the expression rejects, a
   * password shorter than six code units, and in register mode only a
   * confirmation that differs from the password.
   */
  function ErrorsFor(mode: Mode, email: string, password: string, confirm: string): (r: Errors)
    ensures r.email.Some? <==> !EmailMatches(email)
    ensures r.password.Some? <==> Utf16Length(password) < 6
    ensures r.confirm.Some? <==> mode == Register && password != confirm
    ensures r.email.Some? ==> r.email.value == EmailError
    ensures r.password.Some? ==> r.password.value == PasswordError
    ensures r.confirm.Some? ==> r.confirm.value == ConfirmError
  {
    Errors(
      if EmailMatches(email) then None else Some(EmailError),
      if Utf16Length(password) < 6 then Some(PasswordError) else None,
      if mode == Register && password != confirm then Some(ConfirmError) else None)
  }

  /** A form that validates also enables the button: validation is stricter than `isFilled`. */
  lemma ValidImpliesFilled(mode: Mode, email: string, password: string, confirm: string)
    requires ErrorsFor(mode, email, password, confirm) == NoErrors
    ensures IsFilled(mode, email, password, confirm)
  {

  }

  /** Any password of six characters passes the length rule. */
  lemma SixCharactersPass(mode: Mode, email: string, password: string, confirm: string)
    requires |password| == 6
    ensures ErrorsFor(mode, email, password, confirm).password == None
  {
  }

  /** A notification shown to the user. */
  datatype Toast = Info(text: string) | Alert(text: string)

  /** A call into the sign-in provider. */
  datatype AuthCall = AuthCall(mode: Mode, email: string, password: string)

  class Card {
    const mode: Mode
    var email: string
    var password: string
    var confirm: string
    var errors: Errors
    var formTouched: bool
    /** Sign-in calls issued, in order. */
    var calls: seq<AuthCall>
    var toasts: seq<Toast>
    /** Pages navigated to, in order. */
    var navigations: seq<string>

    constructor (mode: Mode)
      ensures this.mode == mode && email == "" && password == "" && confirm == ""
      ensures errors == NoErrors && !formTouched && calls == [] && toasts == [] && navigations == []
    {
      this.mode := mode;
      email, password, confirm := "", "", "";
      errors, formTouched := NoErrors, false;
      calls, toasts, navigations := [], [], [];
    }

    /** `validate`: records the errors field by field and reports whether there are none. */
    method Validate() returns (ok: bool)
      modifies this`errors
      ensures errors == ErrorsFor(mode, email, password, confirm)
      ensures ok <==> errors == NoErrors
    {
      var found := NoErrors;
      if !EmailMatches(email) {
        found := found.(email := Some(EmailError));
      }
      if Utf16Length(password) < 6 {
        found := found.(password := Some(PasswordError));
      }
      if mode == Register && password != confirm {
        found := found.(confirm := Some(ConfirmError));
      }
      errors := found;
      ok := found == NoErrors;
    }

    /**
     * `handleSubmit`: marks the form as touched and validates; an invalid
     * form makes no sign-in call. `outcome` is the provider's answer,
     * a failure carrying the error's message.
     */
    method HandleSubmit(outcome: Result<(), string>)
      modifies this`errors, this`formTouched, this`calls, this`toasts, this`navigations
      ensures formTouched && errors == ErrorsFor(mode, email, password, confirm)
      ensures errors != NoErrors ==>
        calls == old(calls) && toasts == old(toasts) && navigations == old(navigations)
      ensures errors == NoErrors ==> calls == old(calls) + [AuthCall(mode, email, password)]
      ensures errors == NoErrors && outcome.Success? ==>
        && toasts == old(toasts) + [Info(if mode == Login then "Sesión iniciada con éxito" else "Cuenta creada con éxito")]
        && navigations == old(navigations) + ["/"]
      ensures errors == NoErrors && outcome.Failure? ==>
        && toasts == old(toasts) + [Alert(if outcome.error != "" then outcome.error else AuthFailed)]
        && navigations == old(navigations)
    {
      formTouched := true;
      var ok := Validate();
      if !ok {
        return;
      }
      calls := calls + [AuthCall(mode, email, password)];
      if outcome.Success? {
        toasts := toasts + [Info(if mode == Login then "Sesión iniciada con éxito" else "Cuenta creada con éxito")];
        navigations := navigations + ["/"];
      } else {
        toasts := toasts + [Alert(if outcome.error != "" then outcome.error else AuthFailed)];
      }
    }
  }
}
