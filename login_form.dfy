/** The login form: two text fields, an error line, and the submit handler that guards
    against empty fields before calling the session's `login`. */
module LoginForm {
  import opened Common
  import opened Records
  import opened Session

  const FillAllFields: string := "Please fill in all fields"
  const InvalidCredentials: string := "Invalid email or password"

  /** The error line after a submission: the empty-field message when a field is empty
      (and `login` is not called), otherwise the refusal message exactly when `login`
      answered false. */
  function LoginError(email: string, password: string, loginResult: bool): (e: string)
    ensures e == FillAllFields <==> email == [] || password == []
    ensures e == InvalidCredentials <==> email != [] && password != [] && !loginResult
    ensures e == [] <==> email != [] && password != [] && loginResult
  {
    if email == [] || password == [] then FillAllFields
    else if !loginResult then InvalidCredentials
    else []
  }

  class LoginFormState {
    var email: string
    var password: string
    var error: string
    const session: SessionManager

    constructor (session: SessionManager)
      ensures this.session == session && email == [] && password == [] && error == []
    {
      this.session := session;
      email := [];
      password := [];
      error := [];
    }

    method SetEmail(value: string)
      modifies this`email
      ensures email == value
    {
      email := value;
    }

    method SetPassword(value: string)
      modifies this`password
      ensures password == value
    {
      password := value;
    }

    /** `handleSubmit`: clear the error; with an empty field report it and stop; otherwise
        log in with exactly the entered credentials and report a refusal (which the mock
        `login` never gives). */
    method HandleSubmit()
      requires session.Valid()
      modifies this`error, session`user, session`isLoading, session.store`user
      ensures session.Valid()
      ensures email == [] || password == [] ==>
                error == LoginError(email, password, false)
                && session.user == old(session.user) && session.isLoading == old(session.isLoading)
      ensures email != [] && password != [] ==>
                error == LoginError(email, password, true)
                && session.user == Some(LoginUser(email)) && !session.isLoading
    {
      error := [];
      if email == [] || password == [] {
        error := FillAllFields;
        return;
      }
      var ok := session.Login(email, password);
      error := LoginError(email, password, ok);
    }
  }
}
