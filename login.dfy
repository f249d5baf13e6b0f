/** The patient portal's login form. */
module Login {
  import opened Common
  import opened Accounts

  const LoginFailed := "Login Unsuccessful!"

  /** `!showPassword`. */
  function Toggled(shown: bool): (r: bool)
    ensures r != shown
  {
    !shown
  }

  /** The `Login` component. `storedToken` is the `token` entry of local
      storage; `sent` lists the login requests made. */
  class LoginForm {
    var loginData: map<string, string>
    var showPassword: bool
    var error: string
    var storedToken: Option<string>
    var navigatedTo: Option<string>
    var sent: seq<Credentials>

    constructor()
      ensures loginData == map["username" := "", "password" := ""]
      ensures !showPassword && error == "" && storedToken == None && navigatedTo == None && sent == []
    {
      loginData := map["username" := "", "password" := ""];
      showPassword := false;
      error := "";
      storedToken := None;
      navigatedTo := None;
      sent := [];
    }

    /** `handleChange`: only the named field changes and the error is
        cleared. */
    method HandleChange(name: string, value: string)
      modifies this
      ensures loginData == old(loginData)[name := value] && error == ""
      ensures showPassword == old(showPassword) && storedToken == old(storedToken)
      ensures navigatedTo == old(navigatedTo) && sent == old(sent)
    {
      loginData := loginData[name := value];
      error := "";
    }

    /** `togglePasswordVisibility`: only `showPassword` changes. */
    method TogglePasswordVisibility()
      modifies this
      ensures showPassword == Toggled(old(showPassword))
      ensures loginData == old(loginData) && error == old(error) && storedToken == old(storedToken)
      ensures navigatedTo == old(navigatedTo) && sent == old(sent)
    {
      showPassword := !showPassword;
    }

    /** `loginUser`: empty credentials set the message and send nothing;
        otherwise the request is sent and `resp` carries the token or the
        failure. */
    method LoginUser(resp: Response<string>)
      modifies this
      ensures loginData == old(loginData) && showPassword == old(showPassword)
      ensures match CheckCredentials(loginData)
        case Rejected(m) =>
          error == m && sent == old(sent) &&
          storedToken == old(storedToken) && navigatedTo == old(navigatedTo)
        case Accepted(req) =>
          sent == old(sent) + [req] &&
          (resp.Ok? ==> storedToken == Some(resp.body) && navigatedTo == Some("/dashboard") &&
                        error == old(error)) &&
          (resp.Failed? ==> error == ErrorMessage(resp.serverError, LoginFailed) &&
                            storedToken == old(storedToken) && navigatedTo == old(navigatedTo))
    {
      match CheckCredentials(loginData)
      case Rejected(m) =>
        error := m;
      case Accepted(req) =>
        sent := sent + [req];
        match resp
        case Ok(token) =>
          storedToken := Some(token);
          navigatedTo := Some("/dashboard");
        case Failed(e) =>
          error := ErrorMessage(e, LoginFailed);
    }
  }

  /** Clicking the eye icon twice leaves the form as it was. */
  method ToggleTwiceRestores(f: LoginForm)
    modifies f
    ensures f.showPassword == old(f.showPassword)
    ensures f.loginData == old(f.loginData) && f.error == old(f.error)
    ensures f.storedToken == old(f.storedToken) && f.navigatedTo == old(f.navigatedTo) && f.sent == old(f.sent)
  {
    f.TogglePasswordVisibility();
    f.TogglePasswordVisibility();
  }
}
