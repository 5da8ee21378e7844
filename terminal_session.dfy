/** One configured terminal session and its display helpers
    (`TerminalSession` in the client). */
module TerminalSessions {
  import opened Wrappers
  import opened SshConfigs

  datatype TerminalSession = TerminalSession(
    id: string,
    title: string,
    sshConfig: SSHConfig,
    zellijSessionName: string,
    isConnected: bool,
    localUrl: Option<string>,
    lastAuthToken: Option<string>,
    lastConnected: int)

  /** A session built with only the required fields: not connected, no URL,
      no token, and `now` (the wall clock in milliseconds) as its last
      connection time. */
  function NewSession(id: string, title: string, config: SSHConfig, zellijName: string, now: int)
    : (s: TerminalSession)
    ensures s.id == id && s.title == title && s.sshConfig == config
    ensures s.zellijSessionName == zellijName
    ensures !s.isConnected && s.localUrl.None? && s.lastAuthToken.None?
    ensures s.lastConnected == now
  {
    TerminalSession(id, title, config, zellijName, false, None, None, now)
  }

  /** The title followed by the host in parentheses. */
  function DisplayName(s: TerminalSession): (r: string)
    ensures |r| == |s.title| + |s.sshConfig.host| + 3
    ensures r[..|s.title|] == s.title
    ensures r[|s.title|..|s.title| + 2] == " ("
    ensures r[|s.title| + 2..|r| - 1] == s.sshConfig.host
    ensures r[|r| - 1] == ')'
  {
    s.title + " (" + s.sshConfig.host + ")"
  }

  /** "Connected" exactly when connected; otherwise "Disconnected" when a
      positive last-connected time is recorded, else "Not connected". */
  function StatusText(s: TerminalSession): (r: string)
    ensures r == "Connected" <==> s.isConnected
    ensures r == "Disconnected" <==> !s.isConnected && s.lastConnected > 0
    ensures r == "Not connected" <==> !s.isConnected && s.lastConnected <= 0
  {
    if s.isConnected then "Connected"
    else if s.lastConnected > 0 then "Disconnected"
    else "Not connected"
  }

  /** The connection time does not matter once the session is connected. */
  lemma StatusIgnoresTimeWhenConnected(s: TerminalSession, t: int)
    requires s.isConnected
    ensures StatusText(s.(lastConnected := t)) == StatusText(s)
  {
  }
}
