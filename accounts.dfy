/** The username/password check that the login and registration forms
    share. */
module Accounts {
  import opened Common

  const CredentialsRequired := "Username and Password are required."

  datatype Credentials = Credentials(username: string, password: string)

  /** `!data.username || !data.password`: an empty (or missing) username or
      password is refused; otherwise both are sent as typed. */
  function CheckCredentials(data: map<string, string>): (c: Checked<Credentials>)
    ensures c.Rejected? <==> Get(data, "username") == "" || Get(data, "password") == ""
    ensures c.Rejected? ==> c.message == CredentialsRequired
    ensures c.Accepted? ==> c.request == Credentials(Get(data, "username"), Get(data, "password"))
  {
    var u, p := Get(data, "username"), Get(data, "password");
    if u == "" || p == "" then Rejected(CredentialsRequired) else Accepted(Credentials(u, p))
  }

  /** Typing into one field never changes whether the other is filled: once
      both are set, editing either to a non-empty value keeps the form
      acceptable. */
  lemma EditKeepsAccepted(data: map<string, string>, name: string, value: string)
    requires CheckCredentials(data).Accepted?
    requires value != ""
    ensures CheckCredentials(data[name := value]).Accepted?
  {
    assert Get(data[name := value], "username") == (if name == "username" then value else Get(data, "username"));
    assert Get(data[name := value], "password") == (if name == "password" then value else Get(data, "password"));
  }
}
