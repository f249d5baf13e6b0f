/** The patient portal's registration form. */
module Register {
  import opened Common
  import opened Accounts

  const RegisterFailed := "Registration Unsuccessful!"

  /** The `Register` component; `sent` lists the registration requests
      made. */
  class RegisterForm {
    var registerData: map<string, string>
    var error: string
    var navigatedTo: Option<string>
    var sent: seq<Credentials>

    constructor()
      ensures registerData == map["username" := "", "password" := ""]
      ensures error == "" && navigatedTo == None && sent == []
    {
      registerData := map["username" := "", "password" := ""];
      error := "";
      navigatedTo := None;
      sent := [];
    }

    /** `handleChange`: only the named field changes and the error is
        cleared. */
    method HandleChange(name: string, value: string)
      modifies this
      ensures registerData == old(registerData)[name := value] && error == ""
      ensures navigatedTo == old(navigatedTo) && sent == old(sent)
    {
      registerData := registerData[name := value];
      error := "";
    }

    /** `registerUser`: empty credentials set the message and send nothing;
        otherwise the request is sent, and success goes to the login page. */
    method RegisterUser(resp: Response<()>)
      modifies this
      ensures registerData == old(registerData)
      ensures match CheckCredentials(registerData)
        case Rejected(m) => error == m && sent == old(sent) && navigatedTo == old(navigatedTo)
        case Accepted(req) =>
          sent == old(sent) + [req] &&
          (resp.Ok? ==> navigatedTo == Some("/login") && error == old(error)) &&
          (resp.Failed? ==> error == ErrorMessage(resp.serverError, RegisterFailed) &&
                            navigatedTo == old(navigatedTo))
    {
      match CheckCredentials(registerData)
      case Rejected(m) =>
        error := m;
      case Accepted(req) =>
        sent := sent + [req];
        match resp
        case Ok(_) =>
          navigatedTo := Some("/login");
        case Failed(e) =>
          error := ErrorMessage(e, RegisterFailed);
    }
  }
}
