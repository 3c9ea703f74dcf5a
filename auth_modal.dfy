/** The sign-in form of AuthModal.tsx: its submit guard, the error it shows, and its reset. */
module AuthModal {
  import opened Optional
  import opened Strings
  import App

  const MissingCredentialsMessage: string := "Please enter username and password."
  const InvalidCredentialsMessage: string := "Invalid username or password."

  /** `!username.trim() || !password` stops the submission. */
  predicate CanSubmit(username: string, password: string)
    ensures CanSubmit(username, password) <==>
      (exists i :: 0 <= i < |username| && !IsJsWhitespace(username[i])) && password != ""
  {
    !IsBlank(username) && password != ""
  }

  class LoginForm {
    var username: string
    var password: string
    var error: string
    var showPassword: bool

    constructor ()
      ensures username == "" && password == "" && error == "" && !showPassword
    {
      username, password, error, showPassword := "", "", "", false;
    }

    /** The reset effect once the form is closed. */
    method Close()
      modifies this
      ensures username == "" && password == "" && error == "" && !showPassword
    {
      username, password, error, showPassword := "", "", "", false;
    }

    method SetUsername(value: string)
      modifies this`username
      ensures username == value
    {
      username := value;
    }

    method SetPassword(value: string)
      modifies this`password
      ensures password == value
    {
      password := value;
    }

    /** The eye button beside the password. */
    method ToggleShowPassword()
      modifies this`showPassword
      ensures showPassword == !old(showPassword)
    {
      showPassword := !showPassword;
    }

    /** `handleSubmit`, with `onLogin` being the store's `handleLogin`. The error shown
        afterwards depends only on this submission, never on the error shown before it. */
    method Submit(app: App.App) returns (attempted: bool, ok: bool)
      requires app.Valid()
      modifies this`error, app`currentUser, app`sessionUsername, app`isAuthModalOpen
      ensures app.Valid()
      ensures attempted <==> CanSubmit(username, password)
      ensures !attempted ==> !ok && error == MissingCredentialsMessage && unchanged(app)
      ensures attempted ==> (ok <==> App.HasAccount(app.users, username, Some(password)))
      ensures attempted && ok ==>
        && error == ""
        && app.currentUser == Some(app.users[App.LoginIndex(app.users, username, Some(password)).value])
        && app.sessionUsername == Some(username)
        && !app.isAuthModalOpen
      ensures attempted && !ok ==> error == InvalidCredentialsMessage && unchanged(app)
    {
      error := "";
      if !CanSubmit(username, password) {
        error := MissingCredentialsMessage;
        return false, false;
      }
      attempted := true;
      ok := app.Login(username, Some(password));
      if !ok {
        error := InvalidCredentialsMessage;
      }
    }
  }
}
