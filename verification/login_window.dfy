/** The start-up window (LoginWindow) and the application-wide slot that
    remembers it (`App.CurrentLoginWindow`). Closing is animated: the first
    close request is cancelled and starts the animation, whose end closes
    the window for real. Authentication is a parameter. */
module Login {
  import opened Prelude
  import opened Models

  /** The text of the message line. */
  datatype LoginMessage = NoMessage | PasswordTooShort | WrongCredentials

  datatype LoginOutcome = PasswordRefused | BadCredentials | LoggedIn(user: User)

  /** One press of Login: a password shorter than five characters stops
      everything; otherwise `authenticate(username, password)` (the view
      model's `Login`, which stores its answer in `CurrentUser`) decides. The
      user name itself is never checked. */
  function LoginAttempt(username: string, password: string, authenticate: (string, string) -> Option<User>): (r: LoginOutcome)
    ensures r == PasswordRefused <==> Utf16Length(password) < 5
    ensures r.LoggedIn? <==> Utf16Length(password) >= 5 && authenticate(username, password).Some?
    ensures r.LoggedIn? ==> Some(r.user) == authenticate(username, password)
  {
    if Utf16Length(password) < 5 then PasswordRefused
    else
      match authenticate(username, password)
      case Some(user) => LoggedIn(user)
      case None => BadCredentials
  }

  /** The password gate depends on the password alone: whatever is typed as
      user name, even nothing, reaches `Login` once the password is long
      enough. */
  lemma GateIgnoresUsername(u1: string, u2: string, password: string, authenticate: (string, string) -> Option<User>)
    ensures LoginAttempt(u1, password, authenticate).PasswordRefused? == LoginAttempt(u2, password, authenticate).PasswordRefused?
    ensures LoginAttempt([], password, authenticate).PasswordRefused? <==> Utf16Length(password) < 5
  {
  }

  /** The user the window's own view model starts with: `MainViewModel`
      initialises `CurrentUser` to a user with id 1 whose other properties
      are unset (empty here). */
  const InitialUser: User := User(1, [], [], [], None)

  /** The gate counts UTF-16 code units: three emoji (six units) pass it,
      as do two emoji and a letter (five units, three characters); one emoji
      and two letters (four units) do not. */
  lemma GateCountsCodeUnits(username: string, authenticate: (string, string) -> Option<User>)
    ensures !LoginAttempt(username, "\U{1F600}\U{1F600}\U{1F600}", authenticate).PasswordRefused?
    ensures !LoginAttempt(username, "\U{1F600}\U{1F600}a", authenticate).PasswordRefused?
    ensures LoginAttempt(username, "\U{1F600}ab", authenticate).PasswordRefused?
  {
    assert Utf16Length("\U{1F600}\U{1F600}\U{1F600}") == 6;
    assert Utf16Length("\U{1F600}\U{1F600}a") == 5;
    assert Utf16Length("\U{1F600}ab") == 4;
  }

  /** For a password inside the Basic Multilingual Plane, the gate is the
      character count. */
  lemma BmpGateIsCharacterCount(username: string, password: string, authenticate: (string, string) -> Option<User>)
    requires forall k :: 0 <= k < |password| ==> !IsAstral(password[k])
    ensures LoginAttempt(username, password, authenticate).PasswordRefused? <==> |password| < 5
  {
    Utf16LengthOfBmp(password);
  }

  /** `App`: holds the login window that is currently open, if any. */
  class App {
    var currentLoginWindow: LoginWindow?

    constructor()
      ensures currentLoginWindow == null
    {
      currentLoginWindow := null;
    }
  }

  class LoginWindow {
    const app: App
    var isClosingAnimated: bool
    var closed: bool
    var message: LoginMessage
    /** `_vm.CurrentUser` of the view model this window creates and shares
        with the register dialog. */
    var currentUser: Option<User>
    /** Whether a main window was opened for the view model. */
    var mainWindowShown: bool

    /** The constructor registers the new window with the application. */
    constructor(app: App)
      modifies app
      ensures this.app == app && app.currentLoginWindow == this
      ensures !isClosingAnimated && !closed && message == NoMessage
      ensures currentUser == Some(InitialUser) && !mainWindowShown
    {
      this.app := app;
      isClosingAnimated := false;
      closed := false;
      message := NoMessage;
      currentUser := Some(InitialUser);
      mainWindowShown := false;
      new;
      app.currentLoginWindow := this;
    }

    /** The Closing handler: the first request is cancelled and starts the
        animation; any later request goes through. */
    method Closing() returns (cancel: bool)
      modifies this
      ensures cancel == !old(isClosingAnimated)
      ensures isClosingAnimated
      ensures closed == old(closed) && message == old(message)
      ensures currentUser == old(currentUser) && mainWindowShown == old(mainWindowShown)
    {
      if isClosingAnimated {
        return false;
      }
      cancel := true;
      isClosingAnimated := true;
    }

    /** OnClosed: the slot is cleared only while it still names this window,
        so a login window opened later stays registered. */
    method OnClosed()
      modifies app
      ensures old(app.currentLoginWindow) == this ==> app.currentLoginWindow == null
      ensures old(app.currentLoginWindow) != this ==> app.currentLoginWindow == old(app.currentLoginWindow)
    {
      if app.currentLoginWindow == this {
        app.currentLoginWindow := null;
      }
    }

    /** `Close()`: runs the Closing handler and, unless it cancels, closes
        the window and runs OnClosed. */
    method Close()
      requires !closed
      modifies this, app
      ensures isClosingAnimated
      ensures closed == old(isClosingAnimated)
      ensures closed && old(app.currentLoginWindow) == this ==> app.currentLoginWindow == null
      ensures !closed || old(app.currentLoginWindow) != this ==> app.currentLoginWindow == old(app.currentLoginWindow)
      ensures message == old(message) && currentUser == old(currentUser) && mainWindowShown == old(mainWindowShown)
    {
      var cancel := Closing();
      if !cancel {
        closed := true;
        OnClosed();
      }
    }

    /** The end of the closing animation calls `Close()` again, which now
        goes through. */
    method AnimationCompleted()
      requires isClosingAnimated && !closed
      modifies this, app
      ensures closed
      ensures old(app.currentLoginWindow) == this ==> app.currentLoginWindow == null
      ensures old(app.currentLoginWindow) != this ==> app.currentLoginWindow == old(app.currentLoginWindow)
    {
      Close();
    }

    /** Login: a refused password never reaches the view model; otherwise
        the view model's answer replaces `CurrentUser`, and the main window
        opens (and this one starts closing) exactly when it is a user. */
    method LoginClick(username: string, password: string, authenticate: (string, string) -> Option<User>)
      returns (r: LoginOutcome)
      requires !closed
      modifies this, app
      ensures r == LoginAttempt(username, password, authenticate)
      ensures r == PasswordRefused ==> message == PasswordTooShort && currentUser == old(currentUser)
      ensures r != PasswordRefused ==> currentUser == authenticate(username, password)
      ensures r == BadCredentials ==> message == WrongCredentials
      ensures r.LoggedIn? ==> mainWindowShown && isClosingAnimated && closed == old(isClosingAnimated) && message == old(message)
      ensures !r.LoggedIn? ==> mainWindowShown == old(mainWindowShown) && closed == old(closed)
                               && isClosingAnimated == old(isClosingAnimated)
                               && app.currentLoginWindow == old(app.currentLoginWindow)
    {
      r := LoginAttempt(username, password, authenticate);
      if r == PasswordRefused {
        message := PasswordTooShort;
        return;
      }
      currentUser := authenticate(username, password);
      if currentUser.Some? {
        mainWindowShown := true;
        Close();
      } else {
        message := WrongCredentials;
      }
    }

    /** Back from the register dialog, which shares this window's view
        model: a `true` result means `Register` succeeded and has already
        replaced `CurrentUser` by `Authenticate`'s answer, `registered`
        (possibly null); only then does the main window open and this one
        close. Any other result leaves `CurrentUser` as it was. */
    method RegisterDialogReturned(dialogResult: Option<bool>, registered: Option<User>)
      requires !closed
      modifies this, app
      ensures dialogResult == Some(true) ==> mainWindowShown && isClosingAnimated && closed == old(isClosingAnimated)
                                             && currentUser == registered
      ensures dialogResult != Some(true) ==> mainWindowShown == old(mainWindowShown) && closed == old(closed)
                                             && isClosingAnimated == old(isClosingAnimated)
                                             && currentUser == old(currentUser)
      ensures message == old(message)
    {
      if dialogResult == Some(true) {
        currentUser := registered;
        mainWindowShown := true;
        Close();
      }
    }

    /** Typing into any box clears the message line. */
    method ClearErrorMessage()
      modifies this
      ensures message == NoMessage
      ensures closed == old(closed) && isClosingAnimated == old(isClosingAnimated)
      ensures currentUser == old(currentUser) && mainWindowShown == old(mainWindowShown)
    {
      message := NoMessage;
    }
  }

  /** Two login windows in turn: closing the first after the second was
      created leaves the second registered. */
  method HandOver(app: App) returns (first: LoginWindow, second: LoginWindow)
    modifies app
    ensures first.closed && !second.closed
    ensures app.currentLoginWindow == second
  {
    first := new LoginWindow(app);
    second := new LoginWindow(app);
    first.Close();
    first.AnimationCompleted();
  }
}
