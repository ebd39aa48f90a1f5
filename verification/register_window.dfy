/** The sign-up dialog (RegisterWindow). Its checks read the raw text of the
    boxes: nothing is trimmed. The view model's `Register` call is a
    parameter that says whether the account was created. */
module Registration {
  import opened Prelude
  import opened EmailPatterns

  /** Why Register refuses the form, in the order the checks run. */
  datatype RegisterError = MissingField | ShortPassword | PasswordMismatch | BadEmail

  /** A form the dialog hands on to `Register`, said all at once. The
      confirmation box is not among the fields that must be filled in: it
      only has to equal the password. */
  predicate RegistrationAcceptable(t: CharTables, username: string, password: string, confirm: string, email: string) {
    && username != [] && password != [] && email != []
    && Utf16Length(password) >= 5
    && password == confirm
    && IsValidRegisterEmail(t, email)
  }

  /** The chain of early returns in the Register button handler. */
  function CheckRegistration(t: CharTables, username: string, password: string, confirm: string, email: string): (r: Option<RegisterError>)
    ensures r == None <==> RegistrationAcceptable(t, username, password, confirm, email)
    ensures r == Some(MissingField) <==> username == [] || password == [] || email == []
    ensures r == Some(ShortPassword) ==> username != [] && email != [] && password != [] && Utf16Length(password) < 5
    ensures r == Some(PasswordMismatch) ==> username != [] && email != [] && Utf16Length(password) >= 5 && password != confirm
    ensures r == Some(BadEmail) ==> Utf16Length(password) >= 5 && password == confirm && !IsValidRegisterEmail(t, email)
  {
    if username == [] || password == [] || email == [] then Some(MissingField)
    else if Utf16Length(password) < 5 then Some(ShortPassword)
    else if password != confirm then Some(PasswordMismatch)
    else if !IsValidRegisterEmail(t, email) then Some(BadEmail)
    else None
  }

  datatype RegisterOutcome = Invalid(reason: RegisterError) | NotRegistered | Registered

  /** One press of Register: `register(username, password, email)` stands for
      the view model's `Register`, called with the untrimmed texts. */
  function RegisterPressed(t: CharTables, username: string, password: string, confirm: string, email: string,
                           register: (string, string, string) -> bool): (r: RegisterOutcome)
    ensures r.Invalid? <==> CheckRegistration(t, username, password, confirm, email).Some?
    ensures r.Invalid? ==> CheckRegistration(t, username, password, confirm, email) == Some(r.reason)
    ensures r == Registered <==> RegistrationAcceptable(t, username, password, confirm, email) && register(username, password, email)
  {
    match CheckRegistration(t, username, password, confirm, email)
    case Some(e) => Invalid(e)
    case None => if register(username, password, email) then Registered else NotRegistered
  }

  /** Every address handed to `Register` is one the regex
      `^[\w-\.]+@([\w-]+\.)+[\w-]{2,4}$` matches. */
  lemma RegisteredEmailMatchesPattern(t: CharTables, username: string, password: string, confirm: string, email: string,
                                      register: (string, string, string) -> bool)
    requires Sane(t)
    requires RegisterPressed(t, username, password, confirm, email, register) == Registered
    ensures RegisterRegexMatches(t, email)
  {
    RegisterEmailExactly(t, email);
  }

  /** An empty confirmation is not a missing field: with a valid password it
      is reported as a mismatch. */
  lemma EmptyConfirmationIsAMismatch(t: CharTables, username: string, password: string, email: string)
    requires username != [] && email != [] && Utf16Length(password) >= 5
    ensures CheckRegistration(t, username, password, [], email) == Some(PasswordMismatch)
  {
  }

  /** Since nothing is trimmed, a user name of white space alone passes. */
  lemma BlankUsernamePasses(t: CharTables, email: string)
    requires IsValidRegisterEmail(t, email)
    ensures CheckRegistration(t, " ", "12345", "12345", email) == None
  {
  }

  class RegisterWindow {
    /** `DialogResult`: null until the dialog succeeds. */
    var dialogResult: Option<bool>
    var closed: bool

    constructor()
      ensures dialogResult == None && !closed
    {
      dialogResult := None;
      closed := false;
    }

    /** Register: the dialog result is set, and the window closed, only when
        the account was created; every other outcome leaves it open. */
    method RegisterClick(t: CharTables, username: string, password: string, confirm: string, email: string,
                         register: (string, string, string) -> bool) returns (r: RegisterOutcome)
      requires !closed
      modifies this
      ensures r == RegisterPressed(t, username, password, confirm, email, register)
      ensures r == Registered ==> dialogResult == Some(true) && closed
      ensures r != Registered ==> dialogResult == old(dialogResult) && !closed
    {
      r := RegisterPressed(t, username, password, confirm, email, register);
      if r == Registered {
        dialogResult := Some(true);
        closed := true;
      }
    }
  }
}
