/** The saved connection settings of one remote host and their validation
    (`SSHConfig` in the client). */
module SshConfigs {
  import opened Wrappers
  import opened Text

  datatype AuthMethod = Password | PrivateKey

  /** `zellijSessionName` is read by the session collection but not declared
      by the settings class; it is carried here as an optional name. */
  datatype SSHConfig = SSHConfig(
    id: string,
    name: string,
    host: string,
    port: int,
    username: string,
    authMethod: AuthMethod,
    password: Option<string>,
    privateKeyPath: Option<string>,
    privateKeyPassphrase: Option<string>,
    savePassword: bool,
    zellijSessionName: Option<string>)

  datatype ValidationResult = Success | Error(message: string)

  const DefaultPort: int := 22

  const ValidationMessages: set<string> :=
    {"Host cannot be empty", "Username cannot be empty", "Invalid port number",
     "Password cannot be empty", "Private key path cannot be empty"}

  /** The settings built with only the required fields given: every other
      field takes its declared default. */
  function NewConfig(id: string, name: string, host: string, username: string): (c: SSHConfig)
    ensures c.id == id && c.name == name && c.host == host && c.username == username
    ensures c.port == 22 && c.authMethod == Password && !c.savePassword
    ensures c.password.None? && c.privateKeyPath.None? && c.privateKeyPassphrase.None?
    ensures c.zellijSessionName.None?
  {
    SSHConfig(id, name, host, DefaultPort, username, Password, None, None, None, false, None)
  }

  /** A credential that is missing or blank (`isNullOrBlank`). */
  predicate MissingOrBlank(o: Option<string>) {
    o.None? || IsBlank(o.value)
  }

  /** The first failing check, in the order host, username, port, credential. */
  function Validate(c: SSHConfig): (r: ValidationResult)
    ensures r == Success <==>
      && !IsBlank(c.host)
      && !IsBlank(c.username)
      && 1 <= c.port <= 65535
      && (c.authMethod == Password ==> !MissingOrBlank(c.password))
      && (c.authMethod == PrivateKey ==> !MissingOrBlank(c.privateKeyPath))
    ensures r.Error? ==> r.message in ValidationMessages
  {
    if IsBlank(c.host) then Error("Host cannot be empty")
    else if IsBlank(c.username) then Error("Username cannot be empty")
    else if !(1 <= c.port <= 65535) then Error("Invalid port number")
    else match c.authMethod
      case Password =>
        if MissingOrBlank(c.password) then Error("Password cannot be empty") else Success
      case PrivateKey =>
        if MissingOrBlank(c.privateKeyPath) then Error("Private key path cannot be empty") else Success
  }

  /** A blank host is reported whatever the other fields hold. */
  lemma BlankHostReportedFirst(c: SSHConfig)
    requires IsBlank(c.host)
    ensures Validate(c) == Error("Host cannot be empty")
  {
  }

  /** A blank username is reported before any port or credential problem. */
  lemma BlankUsernameBeforePortAndCredential(c: SSHConfig)
    requires !IsBlank(c.host) && IsBlank(c.username)
    ensures Validate(c) == Error("Username cannot be empty")
  {
  }

  /** A port outside 1..65535 is reported before any credential problem. */
  lemma BadPortBeforeCredential(c: SSHConfig)
    requires !IsBlank(c.host) && !IsBlank(c.username)
    requires c.port < 1 || c.port > 65535
    ensures Validate(c) == Error("Invalid port number")
  {
  }

  /** The credential of the method not selected, the display name, the key
      passphrase and the save flag never change the verdict. */
  lemma ValidateIgnoresOtherFields(c: SSHConfig, name: string, passphrase: Option<string>,
                                   save: bool, other: Option<string>)
    ensures Validate(c.(name := name, privateKeyPassphrase := passphrase, savePassword := save))
         == Validate(c)
    ensures c.authMethod == Password ==> Validate(c.(privateKeyPath := other)) == Validate(c)
    ensures c.authMethod == PrivateKey ==> Validate(c.(password := other)) == Validate(c)
  {
  }

  /** Settings left at their defaults are never accepted: the default method
      is a password and the default password is absent. */
  lemma DefaultsNeedAPassword(id: string, name: string, host: string, username: string)
    requires !IsBlank(host) && !IsBlank(username)
    ensures Validate(NewConfig(id, name, host, username)) == Error("Password cannot be empty")
  {
  }
}
