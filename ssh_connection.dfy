/** The remote-command channel (`SSHConnectionManager`): at most one
    authenticated client, command execution, `which`-based existence checks.

    The remote host is an oracle `remote(n, command)`: what the command
    executed through this manager after `n` earlier ones returns. Indexing by
    n lets a repeated command (a process check, say) answer differently over
    time. The network
    dial and the authentication outcome are parameters of `Connect`. */
module SshConnections {
  import opened Wrappers
  import opened Text
  import opened SshConfigs

  /** What the remote side does with one command: it exits with a status and
      its two output streams, or the channel throws (timeout, broken session),
      with an exception message that may be absent. */
  datatype Reply = Exited(status: int, stdout: string, stderr: string) | Threw(message: Option<string>)

  datatype CommandResult = CommandResult(exitCode: int, stdout: string, stderr: string, success: bool)

  /** Why `executeCommand` threw: no client is held, or the session failed. */
  datatype Failure = NotConnected | Thrown(message: Option<string>)

  /** One command as the channel executed it. */
  datatype Executed = Executed(command: string, timeoutSeconds: int)

  /** The command log after a procedure, and what the procedure returned. */
  datatype Run<T> = Run(log: seq<Executed>, result: T)

  datatype ConnectError = DialFailed | MissingCredential(message: string) | AuthFailed

  /** The text Kotlin shows for a thrown exception's message: the message, or
      "null" when it has none. */
  function MessageText(f: Failure): string {
    match f
    case NotConnected => "Not connected"
    case Thrown(Some(m)) => m
    case Thrown(None) => "null"
  }

  /** `CommandResult.getOutput()`: standard output when there is any, else
      standard error. */
  function Output(r: CommandResult): (o: string)
    ensures o == [] <==> r.stdout == [] && r.stderr == []
    ensures o == r.stdout || o == r.stderr
    ensures r.stdout != [] ==> o == r.stdout
  {
    if r.stdout != [] then r.stdout else r.stderr
  }

  /** How `executeCommand` turns the remote reply into its result. */
  function ResultOf(reply: Reply): (r: Result<CommandResult, Failure>)
    ensures r.Ok? <==> reply.Exited?
    ensures r.Ok? ==> r.value.exitCode == reply.status && r.value.stdout == reply.stdout
                      && r.value.stderr == reply.stderr
    ensures r.Ok? ==> (r.value.success <==> r.value.exitCode == 0)
  {
    match reply
    case Exited(status, out, err) => Ok(CommandResult(status, out, err, status == 0))
    case Threw(m) => Err(Thrown(m))
  }

  /** One `executeCommand` as a function of the oracle, the command log
      before it and whether a client is held. */
  function ExecSpec(remote: (nat, string) -> Reply, log: seq<Executed>, connected: bool,
                    command: string, timeout: int): (run: Run<Result<CommandResult, Failure>>)
    ensures !connected ==> run == Run(log, Err(NotConnected))
    ensures connected ==> run.log == log + [Executed(command, timeout)]
    ensures connected ==> run.result == ResultOf(remote(|log|, command))
  {
    if !connected then Run(log, Err(NotConnected))
    else Run(log + [Executed(command, timeout)], ResultOf(remote(|log|, command)))
  }

  /** `commandExists`: `which <name>` succeeded and printed something. */
  predicate ExistsAnswer(r: Result<CommandResult, Failure>) {
    r.Ok? && r.value.success && !IsBlank(r.value.stdout)
  }

  const ExistsTimeout: int := 5

  function WhichCommand(name: string): string {
    "which " + name
  }

  class SSHConnectionManager {
    var sshClient: Option<nat>
    var config: Option<SSHConfig>
    /** Clients whose transport is open and not yet closed. */
    var openClients: set<nat>
    /** The identity the next client created will get. */
    var nextClient: nat
    /** Every (host, port) dialled, in order. */
    var dials: seq<(string, int)>
    /** Every command executed, in order. */
    var executed: seq<Executed>
    const remote: (nat, string) -> Reply

    /** Client and settings are held together, and the held client is the
        only open one: at most one live connection exists. */
    ghost predicate Valid()
      reads this
    {
      && (sshClient.Some? <==> config.Some?)
      && openClients == (if sshClient.Some? then {sshClient.value} else {})
      && (forall c :: c in openClients ==> c < nextClient)
    }

    constructor (remote: (nat, string) -> Reply)
      ensures Valid() && this.remote == remote
      ensures sshClient.None? && config.None? && openClients == {}
      ensures dials == [] && executed == []
    {
      sshClient := None;
      config := None;
      openClients := {};
      nextClient := 0;
      dials := [];
      executed := [];
      this.remote := remote;
    }

    /** Closes the held client, if any, and forgets it; safe to repeat. */
    method Disconnect()
      requires Valid()
      modifies this`sshClient, this`config, this`openClients
      ensures Valid()
      ensures sshClient.None? && config.None? && openClients == {}
    {
      if sshClient.Some? {
        openClients := openClients - {sshClient.value};
      }
      sshClient := None;
      config := None;
    }

    /** Drops any held connection, dials the (rewritten) host, checks that the
        selected method has its credential, authenticates, and only then holds
        the new client and its settings. `dialOk` and `authOk` are what the
        network and the server answer. */
    method Connect(cfg: SSHConfig, dialOk: bool, authOk: bool) returns (r: Result<(), ConnectError>)
      requires Valid()
      modifies this`sshClient, this`config, this`openClients, this`nextClient, this`dials
      ensures Valid()
      ensures dials == old(dials) + [(DialHost(cfg.host), cfg.port)]
      ensures r.Ok? <==> dialOk && authOk && CredentialPresent(cfg)
      ensures r.Ok? ==> sshClient == Some(old(nextClient)) && config == Some(cfg)
      ensures r.Err? ==> sshClient.None? && config.None? && openClients == {}
      ensures dialOk && !CredentialPresent(cfg) ==>
        r == Err(MissingCredential(if cfg.authMethod == Password then "Password is required"
                                   else "Private key path is required"))
      ensures !dialOk ==> r == Err(DialFailed)
    {
      Disconnect();
      var client := nextClient;
      nextClient := nextClient + 1;
      var host := DialHost(cfg.host);
      dials := dials + [(host, cfg.port)];
      if !dialOk {
        return Err(DialFailed);
      }
      openClients := openClients + {client};
      match cfg.authMethod {
        case Password =>
          if cfg.password.None? {
            openClients := openClients - {client};
            return Err(MissingCredential("Password is required"));
          }
        case PrivateKey =>
          if cfg.privateKeyPath.None? {
            openClients := openClients - {client};
            return Err(MissingCredential("Private key path is required"));
          }
      }
      if !authOk {
        openClients := openClients - {client};
        return Err(AuthFailed);
      }
      sshClient := Some(client);
      config := Some(cfg);
      r := Ok(());
    }

    /** Runs one command on the held client; fails with "Not connected" when
        there is none. */
    method ExecuteCommand(command: string, timeoutSeconds: int)
      returns (r: Result<CommandResult, Failure>)
      modifies this`executed
      ensures var run := ExecSpec(remote, old(executed), sshClient.Some?, command, timeoutSeconds);
              executed == run.log && r == run.result
    {
      if sshClient.None? {
        return Err(NotConnected);
      }
      r := ResultOf(remote(|executed|, command));
      executed := executed + [Executed(command, timeoutSeconds)];
    }

    /** `which <name>` succeeded with non-blank output; any failure is false. */
    method CommandExists(name: string) returns (b: bool)
      modifies this`executed
      ensures var run := ExecSpec(remote, old(executed), sshClient.Some?, WhichCommand(name), ExistsTimeout);
              executed == run.log && b == ExistsAnswer(run.result)
    {
      var r := ExecuteCommand(WhichCommand(name), ExistsTimeout);
      b := r.Ok? && r.value.success && !IsBlank(r.value.stdout);
    }

    /** Connected when a client is held and its transport is still up and
        authenticated (`linkUp`, as the transport reports it). */
    method IsConnected(linkUp: bool) returns (b: bool)
      ensures b <==> sshClient.Some? && linkUp
    {
      b := sshClient.Some? && linkUp;
    }
  }

  /** The credential the selected method needs is present (possibly blank:
      only absence is rejected here). */
  predicate CredentialPresent(cfg: SSHConfig) {
    match cfg.authMethod
    case Password => cfg.password.Some?
    case PrivateKey => cfg.privateKeyPath.Some?
  }

  /** The loopback host of an emulator's host machine. */
  const EmulatorHostAddress: string := "10.0.2.2"

  /** "localhost" and "127.0.0.1" are rewritten to the emulator's host
      address; every other host is dialled as given. */
  function DialHost(host: string): (h: string)
    ensures host == "localhost" || host == "127.0.0.1" ==> h == EmulatorHostAddress
    ensures host != "localhost" && host != "127.0.0.1" ==> h == host
  {
    if host == "localhost" || host == "127.0.0.1" then EmulatorHostAddress else host
  }

  /** Rewriting is idempotent: a rewritten host is never rewritten again. */
  lemma DialHostIdempotent(host: string)
    ensures DialHost(DialHost(host)) == DialHost(host)
  {
  }
}
