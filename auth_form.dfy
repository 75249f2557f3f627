/** The sign-in screen: the password-length gate, the handling of what `login` resolves to,
    the translation of the provider's error messages, and the switch between signing in and
    registering. */
module AuthForm {
  import opened Common
  import opened AuthContext

  const InvalidCredentialsText := "Credenciales inválidas. Verifica tu email y contraseña."
  const ConfirmEmailText := "Por favor, confirma tu email. Revisa tu bandeja de entrada y haz clic en el enlace de confirmación."
  const DefaultAuthError := "Error de autenticación"
  const DefaultFailure := "Ocurrió un error"
  const ShortPassword := "La contraseña debe tener al menos 6 caracteres"

  /** The shortest password the form lets through. */
  const MinPasswordLength: nat := 6

  /** The text shown for a message the provider threw: the two messages it recognises get a
      fixed translation, tested in this order; any other message is shown as it is, and an
      empty one is replaced by a generic text. */
  function ClassifyAuthError(message: string): (text: string)
    ensures Contains(message, "Invalid login credentials") ==> text == InvalidCredentialsText
    ensures !Contains(message, "Invalid login credentials") && Contains(message, "Email not confirmed") ==>
      text == ConfirmEmailText
    ensures !Contains(message, "Invalid login credentials") && !Contains(message, "Email not confirmed") ==>
      text == (if message == "" then DefaultAuthError else message)
  {
    if Contains(message, "Invalid login credentials") then InvalidCredentialsText
    else if Contains(message, "Email not confirmed") then ConfirmEmailText
    else if message == "" then DefaultAuthError
    else message
  }

  /** A message that mentions both errors is read as bad credentials. */
  lemma CredentialsWinOverConfirmation(message: string, before: string, after: string)
    requires message == before + "Invalid login credentials" + after
    ensures ClassifyAuthError(message) == InvalidCredentialsText
  {
    assert OccursAt(message, "Invalid login credentials", |before|) by {
      assert message[|before|..|before| + |"Invalid login credentials"|] == "Invalid login credentials";
    }
  }

  /** `result.error || 'Ocurrió un error'`: the error string when there is a non-empty one,
      a generic text otherwise. */
  function FailureText(error: Option<string>): (text: string)
    ensures text != ""
    ensures error.Some? && error.value != "" ==> text == error.value
    ensures !(error.Some? && error.value != "") ==> text == DefaultFailure
  {
    if error.Some? && error.value != "" then error.value else DefaultFailure
  }

  /** Three emoji make a long enough password: `length` counts six code units for them. */
  lemma ThreeEmojiPasswordIsLongEnough()
    ensures Utf16Length("\U{1F600}\U{1F600}\U{1F600}") == MinPasswordLength
  {
    assert "\U{1F600}\U{1F600}\U{1F600}"[..2] == "\U{1F600}\U{1F600}";
    assert "\U{1F600}\U{1F600}"[..1] == "\U{1F600}";
  }

  /** What `login` may do with the form: resolve to a result, or throw with a message (the
      empty string when the thrown value has none). */
  datatype LoginOutcome = Resolved(result: AuthResult) | Thrown(message: string)

  class LoginForm {
    var isLogin: bool
    var email: string
    var password: string
    var loading: bool
    var error: string
    var success: string

    constructor ()
      ensures isLogin && email == "" && password == "" && !loading && error == "" && success == ""
    {
      isLogin, email, password := true, "", "";
      loading, error, success := false, "", "";
    }

    /** `handleSubmit` with an email that holds an '@': a password shorter than six UTF-16
        code units is turned away in either mode before any call; in sign-in mode a long
        enough one is passed to `login`, and what `login` does decides the messages.
        `called` says whether `login` was called. */
    method Submit(outcome: LoginOutcome) returns (called: bool)
      requires Contains(email, "@")
      requires isLogin || Utf16Length(password) < MinPasswordLength
      modifies this`loading, this`error, this`success
      ensures !loading
      ensures called <==> Utf16Length(password) >= MinPasswordLength
      ensures !called ==> error == ShortPassword && success == ""
      ensures called && outcome.Resolved? && !outcome.result.success ==>
        error == FailureText(outcome.result.error) && success == ""
      ensures called && outcome.Resolved? && outcome.result.success ==>
        error == "" && (success != "" <==> outcome.result.error.Some? && outcome.result.error.value != "")
        && (success != "" ==> success == outcome.result.error.value)
      ensures called && outcome.Thrown? ==> error == ClassifyAuthError(outcome.message) && success == ""
    {
      loading := true;
      error := "";
      success := "";
      if Utf16Length(password) < MinPasswordLength {
        error := ShortPassword;
        loading := false;
        return false;
      }
      called := true;
      match outcome {
        case Resolved(result) =>
          if !result.success {
            error := FailureText(result.error);
          } else if result.error.Some? && result.error.value != "" {
            success := result.error.value;
          }
        case Thrown(message) =>
          error := ClassifyAuthError(message);
      }
      loading := false;
    }

    /** The mode switch: sign-in becomes registration and back, and both messages go. */
    method ToggleMode()
      modifies this`isLogin, this`error, this`success
      ensures isLogin == !old(isLogin) && error == "" && success == ""
    {
      isLogin := !isLogin;
      error := "";
      success := "";
    }
  }
}
