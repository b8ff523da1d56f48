/**
 * The registration form of the web client: the password-match validator,
 * which also edits the errors of the confirmation control, the form's
 * validity, and what `register` does with the auth service's answer.
 * A control's errors are the set of their keys, None standing for `null`.
 * The regular expression of `Validators.email` is an input.
 */
module RegisterForm {
  import opened Wrappers
  import opened Text
  import Accounts
  import AuthService
  import AuthController

  const PasswordMismatch := "passwordMismatch"
  const UsernameTakenKey := "usernameTaken"
  const DefaultRole := "Turista"

  /** The validator's test: both fields non-empty (truthy) and different. */
  predicate Mismatch(password: string, confirm: string)
  {
    password != "" && confirm != "" && password != confirm
  }

  /** The confirmation control's errors after the validator ran. */
  function ConfirmErrorsAfter(password: string, confirm: string, errors: Option<set<string>>): (after: Option<set<string>>)
    ensures Mismatch(password, confirm) ==> after == Some({PasswordMismatch})
    ensures !Mismatch(password, confirm) ==> after.None? || PasswordMismatch !in after.value
    ensures !Mismatch(password, confirm) && errors.Some? ==>
              forall k :: k != PasswordMismatch ==> (after.Some? && k in after.value <==> k in errors.value)
    ensures after.Some? ==> after.value != {}
    ensures !Mismatch(password, confirm) && errors.None? ==> after.None?
  {
    if Mismatch(password, confirm) then Some({PasswordMismatch})
    else match errors
      case None => None
      case Some(e) =>
        var rest := e - {PasswordMismatch};
        if rest == {} then
          assert forall k :: k != PasswordMismatch && k in e ==> k in rest;
          None
        else Some(rest)
  }

  /** Running the validator again on the same values changes nothing more. */
  lemma ValidatorIdempotent(password: string, confirm: string, errors: Option<set<string>>)
    ensures ConfirmErrorsAfter(password, confirm, ConfirmErrorsAfter(password, confirm, errors))
            == ConfirmErrorsAfter(password, confirm, errors)
  {
    if !Mismatch(password, confirm) && errors.Some? && errors.value - {PasswordMismatch} != {} {
      var e := errors.value - {PasswordMismatch};
      assert e - {PasswordMismatch} == e;
    }
  }

  /** The body of the request `register` sends: the confirmation stays behind. */
  datatype RegisterBody = RegisterBody(username: string, email: string, role: string, password: string)

  /** The error body as the HTTP client hands it over: a string, or parsed JSON (which has no `includes`). */
  datatype ErrorBody = TextBody(text: string) | JsonBody

  /** What the error callback does. */
  datatype ErrorReaction = MarkUsernameTaken | ShowUnexpectedError | CallbackThrows

  /** The error callback of `register`. */
  function React(status: int, body: ErrorBody): (reaction: ErrorReaction)
    ensures reaction == MarkUsernameTaken <==> status == 400 && body.TextBody? && Contains(body.text, "Username")
    ensures reaction == CallbackThrows <==> status == 400 && body.JsonBody?
  {
    if status == 400 then
      match body
        case JsonBody => CallbackThrows
        case TextBody(t) => if Contains(t, "Username") then MarkUsernameTaken else ShowUnexpectedError
    else ShowUnexpectedError
  }

  /** The form the client sees for an auth controller response body. */
  function ClientBody(b: AuthController.Body): ErrorBody
  {
    if b.Text? then TextBody(b.text) else JsonBody
  }

  /** The auth service's "Username taken." answer makes the form mark the username control. */
  lemma TakenUsernameMarked()
    ensures React(400, ClientBody(AuthController.Body.Text(AuthService.UsernameTaken))) == MarkUsernameTaken
  {
    assert HasPrefix(AuthService.UsernameTaken[0..], "Username");
  }

  /** A validation problem answer (parsed JSON) makes the callback throw instead. */
  lemma ValidationProblemThrows()
    ensures React(400, ClientBody(AuthController.Body.ValidationProblem)) == CallbackThrows
  {
  }

  class Registration {
    var username: string
    var email: string
    var role: string
    var password: string
    var confirmPassword: string
    var confirmErrors: Option<set<string>>
    var usernameErrors: Option<set<string>>

    /** The initial form: every field empty, the role "Turista". */
    constructor()
      ensures username == "" && email == "" && role == DefaultRole && password == ""
      ensures confirmPassword == "" && confirmErrors.None? && usernameErrors.None?
    {
      username := "";
      email := "";
      role := DefaultRole;
      password := "";
      confirmPassword := "";
      confirmErrors := None;
      usernameErrors := None;
    }

    /** `passwordMatchValidator`: the group error, and the confirmation control's errors updated. */
    method PasswordMatchValidator() returns (groupError: Option<set<string>>)
      modifies this`confirmErrors
      ensures groupError == (if Mismatch(password, confirmPassword) then Some({PasswordMismatch}) else None)
      ensures confirmErrors == ConfirmErrorsAfter(password, confirmPassword, old(confirmErrors))
    {
      if password != "" && confirmPassword != "" && password != confirmPassword {
        confirmErrors := Some({PasswordMismatch});
        return Some({PasswordMismatch});
      }
      if confirmErrors.Some? {
        var errors := confirmErrors.value - {PasswordMismatch};
        if errors == {} {
          confirmErrors := None;
        } else {
          confirmErrors := Some(errors);
        }
      }
      groupError := None;
    }

    /**
     * `username` edited: Angular re-runs the control's validator, whose
     * result replaces any error set on the control from outside.
     */
    method EditUsername(u: string)
      modifies this`username, this`usernameErrors
      ensures username == u && usernameErrors.None?
    {
      username := u;
      usernameErrors := None;
    }

    /**
     * The form is valid: every field is required, the email matches the
     * pattern, the password has at least 8 characters, the two passwords
     * agree, and no error was set on the username control from outside.
     */
    predicate FormValid(emailPattern: string -> bool)
      reads this
    {
      && username != "" && usernameErrors.None? && email != "" && emailPattern(email) && role != ""
      && |password| >= 8 && confirmPassword != ""
      && !Mismatch(password, confirmPassword)
    }

    /**
     * `register`: nothing while the form is invalid; otherwise the request
     * goes out, and a failure `answer` (status and body) is handed to the
     * error callback.
     */
    method Register(emailPattern: string -> bool, answer: Option<(int, ErrorBody)>)
      returns (sent: Option<RegisterBody>, reaction: Option<ErrorReaction>)
      modifies this`usernameErrors
      ensures !old(FormValid(emailPattern)) ==> sent.None? && reaction.None? && usernameErrors == old(usernameErrors)
      ensures old(FormValid(emailPattern)) ==> sent == Some(RegisterBody(username, email, role, password))
      ensures old(FormValid(emailPattern)) && answer.Some? ==> reaction == Some(React(answer.value.0, answer.value.1))
      ensures reaction == Some(MarkUsernameTaken) ==> usernameErrors == Some({UsernameTakenKey})
      ensures reaction != Some(MarkUsernameTaken) ==> usernameErrors == old(usernameErrors)
      ensures answer.None? ==> reaction.None?
      ensures reaction == Some(MarkUsernameTaken) ==> !FormValid(emailPattern)
    {
      if !FormValid(emailPattern) {
        return None, None;
      }
      sent := Some(RegisterBody(username, email, role, password));
      if answer.None? {
        return sent, None;
      }
      var r := React(answer.value.0, answer.value.1);
      if r == MarkUsernameTaken {
        usernameErrors := Some({UsernameTakenKey});
      }
      reaction := Some(r);
    }
  }

  /** The form's default role is not one the auth service lets a user register with. */
  lemma DefaultRoleRejected(b: RegisterBody)
    requires b.role == DefaultRole
    ensures !Accounts.ValidRegisterRequest(Accounts.RegisterRequest(b.username, b.email, b.password, b.role))
  {
    Accounts.TuristaRejected(Accounts.RegisterRequest(b.username, b.email, b.password, b.role));
  }
}
