/** The password-reset dialog (ForgotPasswordWindow). It writes every
    verdict into one message line and closes only after a successful reset.
    The view model's `ResetPassword` call is a parameter. */
module PasswordReset {
  import opened Prelude
  import opened EmailPatterns

  /** The text of the message line. */
  datatype ResetMessage = NoMessage | BadEmailFormat | ShortPassword | PasswordMismatch | ResetDone | UnknownEmail

  /** The chain of early returns: the email format first, then the length of
      the new password, then the confirmation. */
  function CheckReset(t: CharTables, email: string, newPassword: string, confirm: string): (r: Option<ResetMessage>)
    ensures r == None <==> IsValidRegisterEmail(t, email) && Utf16Length(newPassword) >= 5 && newPassword == confirm
    ensures r == Some(BadEmailFormat) <==> !IsValidRegisterEmail(t, email)
    ensures r == Some(ShortPassword) <==> IsValidRegisterEmail(t, email) && Utf16Length(newPassword) < 5
    ensures r == Some(PasswordMismatch) <==> IsValidRegisterEmail(t, email) && Utf16Length(newPassword) >= 5 && newPassword != confirm
  {
    if !IsValidRegisterEmail(t, email) then Some(BadEmailFormat)
    else if Utf16Length(newPassword) < 5 then Some(ShortPassword)
    else if newPassword != confirm then Some(PasswordMismatch)
    else None
  }

  /** The message after one press of Reset; `reset(email, newPassword)`
      stands for the view model's `ResetPassword`, false when no user has
      that email. */
  function ResetPressed(t: CharTables, email: string, newPassword: string, confirm: string,
                        reset: (string, string) -> bool): (m: ResetMessage)
    ensures m != NoMessage
    ensures CheckReset(t, email, newPassword, confirm).Some? ==> m == CheckReset(t, email, newPassword, confirm).value
    ensures m == ResetDone <==> CheckReset(t, email, newPassword, confirm) == None && reset(email, newPassword)
    ensures m == UnknownEmail <==> CheckReset(t, email, newPassword, confirm) == None && !reset(email, newPassword)
  {
    match CheckReset(t, email, newPassword, confirm)
    case Some(e) => e
    case None => if reset(email, newPassword) then ResetDone else UnknownEmail
  }

  /** An empty email box is reported as a bad format, whatever the
      passwords say: the pattern needs at least an '@' and a final label. */
  lemma EmptyEmailIsBadFormat(t: CharTables, newPassword: string, confirm: string, reset: (string, string) -> bool)
    ensures ResetPressed(t, [], newPassword, confirm, reset) == BadEmailFormat
  {
    assert FirstIndex([], IsAt) == -1;
  }

  /** A reset request only ever reaches the database with an address the
      registration pattern matches and a password of at least five
      characters that was typed twice. */
  lemma ResetNeedsWellFormedInput(t: CharTables, email: string, newPassword: string, confirm: string,
                                  reset: (string, string) -> bool)
    requires Sane(t)
    requires ResetPressed(t, email, newPassword, confirm, reset) in {ResetDone, UnknownEmail}
    ensures RegisterRegexMatches(t, email) && Utf16Length(newPassword) >= 5 && newPassword == confirm
  {
    RegisterEmailExactly(t, email);
  }

  class ForgotPasswordWindow {
    var message: ResetMessage
    var closed: bool

    constructor()
      ensures message == NoMessage && !closed
    {
      message := NoMessage;
      closed := false;
    }

    /** Reset: the window closes after a successful reset and stays open,
        showing why, otherwise. */
    method ResetPasswordClick(t: CharTables, email: string, newPassword: string, confirm: string,
                              reset: (string, string) -> bool)
      requires !closed
      modifies this
      ensures message == ResetPressed(t, email, newPassword, confirm, reset)
      ensures closed <==> message == ResetDone
    {
      message := ResetPressed(t, email, newPassword, confirm, reset);
      closed := message == ResetDone;
    }

    /** Typing into any box clears the message line. */
    method ClearErrorMessage()
      modifies this
      ensures message == NoMessage && closed == old(closed)
    {
      message := NoMessage;
    }
  }
}
