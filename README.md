# zelland core, modelled in Dafny

zelland puts a Zellij terminal session running on a remote host inside an
Android app. A small daemon on the host shows files (images, Markdown) on the
phone and collects the annotations made on them. This project models the parts
of both that hold state and make decisions.

The Android client (Kotlin) parts:

- **The remote Zellij lifecycle** (`ZellijManager`):
  - install and version checks, with the version gate at 0.43;
  - the auth-token parser: remove colour sequences, then take a `token_<n>:` label, else a UUID, else the trimmed text;
  - the bounded start-and-poll procedure, with at most five process checks before a log tail;
  - stopping the server, and listing, finding and deleting sessions.
- **The SSH channel** (`SSHConnectionManager`):
  - at most one authenticated client, held only after authentication succeeds;
  - the emulator host rewrite;
  - command results and `which`-based existence checks.

  The remote host is an oracle that answers the n-th command. Every command executed is logged, so ordering and retry counts can be stated.
- **The saved connection settings and their validation** (`SSHConfig`), and **a terminal session's display helpers** (`TerminalSession`).
- **The session collection** (`TerminalViewModel`):
  - add with duplicate rejection, remove with active-index clamping, replace by id;
  - connect and disconnect, driven by the HTTPS reachability classifier;
  - the status list shown to the user and the lists saved to preferences.
- **The daemon control channel client** (`DaemonConnectionManager`): an event-driven state machine. Pings are answered, other envelopes are forwarded, a failure schedules one reconnect unless closing, and a disconnect suppresses reconnects for good.
- **The sticky keyboard modifiers**, shared by the two terminal views (`TerminalFragment`, `TerminalScreen`) and their `TerminalWebView`:
  - Ctrl, Alt and Meta each cycle OFF → ON → (a second tap within 300 ms) LOCKED;
  - the meta state is composed from the modifiers that are not OFF;
  - ON modifiers are one-shot and are reset once a key has used them;
  - characters map to key codes, and the active modifiers are merged into every key event.

The daemon (Go) parts:

- **The annotation store** (`kdl` package): load, with a missing file read as empty; save; and append, which upserts by annotation ID.
- **The asset registry** (`assets` package): random hexadecimal IDs, serving until expiry, and the periodic cleanup sweep.
- **The server** (`server` package):
  - loopback-only admission of trigger requests;
  - the trigger's validation order;
  - the asset-path map and the broadcast of `OpenView`;
  - the client set and the greeting ping;
  - the `.kdl` path next to the shown document, which receives the annotations.

Each source file with its own state becomes a class whose methods update that
state. Each method is proved against a specification function of the old
state, and the properties are proved as lemmas about those functions. The pure
parts (parsers, validators, URL and path builders) are functions, with lemmas
that relate them to independent descriptions: round trips, first-match
characterisations and concrete examples from the source's comments and tests.

Clocks, random bytes, the network, the file system's path resolution and
existence checks, and the codecs (protobuf, KDL, JSON) are parameters or
opaque values. Each module's header comment says which.

## Model

Paths are relative to the repository root.

| member | source | states |
|---|---|---|
| SshConfigs.NewConfig | app/src/main/java/com/zelland/model/SSHConfig.kt:10-21 | settings built from the required fields alone have port 22, password auth, no password, key or passphrase, and no saving |
| SshConfigs.Validate | app/src/main/java/com/zelland/model/SSHConfig.kt:31-54 | Success exactly when the host and username are not blank, the port is in 1..65535 and the selected method's credential is present and not blank; every error is one of the five messages |
| SshConfigs.BlankHostReportedFirst | app/src/main/java/com/zelland/model/SSHConfig.kt:32-34 | a blank host is reported as "Host cannot be empty" whatever the other fields hold |
| SshConfigs.BlankUsernameBeforePortAndCredential | app/src/main/java/com/zelland/model/SSHConfig.kt:35-37 | a blank username is reported before any port or credential problem |
| SshConfigs.BadPortBeforeCredential | app/src/main/java/com/zelland/model/SSHConfig.kt:38-40 | a port outside 1..65535 gives "Invalid port number" before any credential problem |
| SshConfigs.ValidateIgnoresOtherFields | app/src/main/java/com/zelland/model/SSHConfig.kt:41-53 | the name, the passphrase, the save flag and the credential of the method not selected never change the verdict |
| SshConfigs.DefaultsNeedAPassword | app/src/main/java/com/zelland/model/SSHConfig.kt:14-20 | settings left at their defaults are refused with "Password cannot be empty" |
| TerminalSessions.NewSession | app/src/main/java/com/zelland/model/TerminalSession.kt:8-25 | a new session is not connected and has no URL and no token; its last-connected time is the clock reading |
| TerminalSessions.DisplayName | app/src/main/java/com/zelland/model/TerminalSession.kt:29-31 | the title, " (", the host and ")", position by position |
| TerminalSessions.StatusText | app/src/main/java/com/zelland/model/TerminalSession.kt:36-42 | "Connected" iff connected; "Disconnected" iff not connected and the last-connected time is positive; "Not connected" otherwise |
| TerminalSessions.StatusIgnoresTimeWhenConnected | app/src/main/java/com/zelland/model/TerminalSession.kt:37-38 | a connected session's status does not depend on its last-connected time |
| SshConnections.Output | app/src/main/java/com/zelland/ssh/SSHConnectionManager.kt:183 | the standard output when it is non-empty, else the standard error; empty only when both are |
| SshConnections.ResultOf | app/src/main/java/com/zelland/ssh/SSHConnectionManager.kt:109-126 | a command that exits gives its status and both streams, with success iff the status is 0; a channel exception gives an error |
| SshConnections.ExecSpec | app/src/main/java/com/zelland/ssh/SSHConnectionManager.kt:105-127 | without a client the result is "Not connected" and nothing is logged; with one the command is logged once and the oracle's answer for that position is returned |
| SshConnections.DialHost | app/src/main/java/com/zelland/ssh/SSHConnectionManager.kt:52-56 | "localhost" and "127.0.0.1" dial 10.0.2.2; every other host is dialled as given |
| SshConnections.DialHostIdempotent | app/src/main/java/com/zelland/ssh/SSHConnectionManager.kt:52-56 | a rewritten host is not rewritten again |
| SshConnections.SSHConnectionManager.constructor | app/src/main/java/com/zelland/ssh/SSHConnectionManager.kt:19-29 | no client, no settings, nothing open, dialled or executed |
| SshConnections.SSHConnectionManager.Disconnect | app/src/main/java/com/zelland/ssh/SSHConnectionManager.kt:145-154 | afterwards no client or settings are held and no client is open, whatever the state before; it keeps the one-client invariant |
| SshConnections.SSHConnectionManager.Connect | app/src/main/java/com/zelland/ssh/SSHConnectionManager.kt:35-99 | dials the rewritten host and port once. It succeeds iff the dial works, the selected credential is present and authentication passes, and only then holds the new client and settings. Any failure leaves nothing held or open, with the missing-credential messages as written. At most one client is ever open |
| SshConnections.SSHConnectionManager.ExecuteCommand | app/src/main/java/com/zelland/ssh/SSHConnectionManager.kt:105-127 | the new log and the result are those of `ExecSpec` |
| SshConnections.SSHConnectionManager.CommandExists | app/src/main/java/com/zelland/ssh/SSHConnectionManager.kt:133-140 | runs `which <name>` with a 5 s timeout; true iff it succeeded with non-blank output; every failure is false |
| SshConnections.SSHConnectionManager.IsConnected | app/src/main/java/com/zelland/ssh/SSHConnectionManager.kt:159-161 | true iff a client is held and its transport reports connected and authenticated |
| Zellij.StripAnsi | app/src/main/java/com/zelland/zellij/ZellijManager.kt:125 | the text does not grow; what it removes and keeps is pinned by `StripAnsiNoEsc`, `StripAnsiDropsSgr` and `StripAnsiKeepsPlainChar` |
| Zellij.SgrPrefix | app/src/main/java/com/zelland/zellij/ZellijManager.kt:125 | a length it returns covers exactly one colour sequence: ESC, '[', parameter characters, 'm' |
| Zellij.SgrPrefixComplete | app/src/main/java/com/zelland/zellij/ZellijManager.kt:125 | every colour sequence a text starts with is found, with its length |
| Zellij.RunLengthSpec | app/src/main/java/com/zelland/zellij/ZellijManager.kt:125 | a measured run holds only matching characters and cannot be extended (greedy `*`) |
| Zellij.RunStops | app/src/main/java/com/zelland/zellij/ZellijManager.kt:131 | a run that nothing extends is the run measured |
| Zellij.StripAnsiNoEsc | app/src/main/java/com/zelland/zellij/ZellijManager.kt:125 | text without ESC is left unchanged |
| Zellij.StripAnsiDropsSgr | app/src/main/java/com/zelland/zellij/ZellijManager.kt:125 | a leading colour sequence is removed whole |
| Zellij.StripAnsiKeepsPlainChar | app/src/main/java/com/zelland/zellij/ZellijManager.kt:125 | a leading character other than ESC is kept |
| Zellij.LabelledTokenAt | app/src/main/java/com/zelland/zellij/ZellijManager.kt:131 | a match found at a position starts with "token_", and its group is a non-empty run of `[a-f0-9-]` characters |
| Zellij.LabelledTokenIndex | app/src/main/java/com/zelland/zellij/ZellijManager.kt:131-136 | the first position where the labelled pattern matches, with no match before it; None iff there is no match anywhere |
| Zellij.UuidIndex | app/src/main/java/com/zelland/zellij/ZellijManager.kt:139-144 | the first position of a lowercase 8-4-4-4-12 UUID, with none before it; None iff there is none |
| Zellij.ParseToken | app/src/main/java/com/zelland/zellij/ZellijManager.kt:131-154 | the group of the first labelled match when there is one; else the first lowercase UUID; else the trimmed text when it is longer than 20 characters; else nothing. A token found is non-empty with no surrounding whitespace |
| Zellij.AuthTokenFrom | app/src/main/java/com/zelland/zellij/ZellijManager.kt:110-167 | a command that throws fails with "Error creating auth token: " and the message; a non-zero exit with "Failed to create auth token: " and the error stream; a successful one gives exactly the token `ParseToken` finds in the colour-free output, or fails with "Failed to parse auth token from output: " and that output |
| Zellij.LabelledTokenAtPositions | app/src/main/java/com/zelland/zellij/ZellijManager.kt:131-133 | label, digits, ':', regex spaces and then a maximal token run make a match whose group is exactly that run |
| Zellij.LabelCapturesToken | app/src/main/java/com/zelland/zellij/ZellijManager.kt:131-133 | `token_<digits>:<spaces><token>` followed by a non-token character captures exactly the token |
| Zellij.LabelledTokenAfterPreamble | app/src/main/java/com/zelland/zellij/ZellijManager.kt:131-133 | after a preamble with no '_', the first match is at the label |
| Zellij.TokenFromFirstLabel | app/src/main/java/com/zelland/zellij/ZellijManager.kt:131-136 | colour-free output with a labelled token yields the group of the first match |
| Zellij.LabelledTokenYielded | app/src/main/java/com/zelland/zellij/ZellijManager.kt:117-136 | a preamble, then a labelled token, yields exactly that token |
| Zellij.ExampleTokenOutputYieldsToken | app/src/main/java/com/zelland/zellij/ZellijManager.kt:119-136 | the documented reply "Created token successfully\n\ntoken_1: 40cfd772-…" yields exactly the UUID |
| Zellij.TokenFromFirstUuid | app/src/main/java/com/zelland/zellij/ZellijManager.kt:138-144 | colour-free output with no labelled token yields its first UUID |
| Zellij.TokenFromTrimmedOutput | app/src/main/java/com/zelland/zellij/ZellijManager.kt:146-154 | colour-free output with neither a labelled token nor a UUID yields its trimmed text when that is longer than 20 characters, and otherwise fails with the output in the message |
| Zellij.BareUuidYieldsItself | app/src/main/java/com/zelland/zellij/ZellijManager.kt:138-144 | a bare UUID followed by whitespace yields itself |
| Zellij.EmptyOutputFails | app/src/main/java/com/zelland/zellij/ZellijManager.kt:146-154 | empty output fails with "Failed to parse auth token from output: " |
| Zellij.FailedCreateCarriesStderr | app/src/main/java/com/zelland/zellij/ZellijManager.kt:155-158 | a non-zero exit fails with the error stream in the message |
| Zellij.VersionFrom | app/src/main/java/com/zelland/zellij/ZellijManager.kt:33-45 | a version iff the command succeeded: the trimmed text after the first "zellij" of the trimmed output, with no surrounding whitespace; a failed or throwing command gives None |
| Zellij.VersionFromBanner | app/src/main/java/com/zelland/zellij/ZellijManager.kt:35-38 | output made of whitespace, "zellij", whitespace, a version and whitespace reads as exactly that version |
| Zellij.VersionWithoutName | app/src/main/java/com/zelland/zellij/ZellijManager.kt:36-38 | output without "zellij" in it reads as the whole trimmed output |

| Zellij.VersionFromExample | app/src/main/java/com/zelland/zellij/ZellijManager.kt:35-38 | "zellij 0.43.0\n" reads as "0.43.0" |
| Zellij.IsVersionSupported | app/src/main/java/com/zelland/zellij/ZellijManager.kt:329-346 | the 0.43 gate on the first two dot-separated parts, pinned for every rendered major and minor by `VersionGate` and `UndottedVersionUnsupported` |
| Zellij.VersionGate | app/src/main/java/com/zelland/zellij/ZellijManager.kt:329-346 | for a dotted version whose first two parts are integers, supported iff major > 0, or major is 0 and minor ≥ 43 |
| Zellij.ReleaseBeforeWebClientUnsupported | app/src/main/java/com/zelland/zellij/ZellijManager.kt:337-342 | "0.42.9" is not supported |
| Zellij.WebClientReleaseSupported | app/src/main/java/com/zelland/zellij/ZellijManager.kt:337-342 | "0.43.0" is supported |
| Zellij.MajorReleaseSupported | app/src/main/java/com/zelland/zellij/ZellijManager.kt:337-342 | "1.0.0" is supported |
| Zellij.UndottedVersionUnsupported | app/src/main/java/com/zelland/zellij/ZellijManager.kt:331-332 | a version with fewer than two parts is not supported |
| Zellij.NonBlankTrimmed | app/src/main/java/com/zelland/zellij/ZellijManager.kt:273-275 | the kept names are exactly the trimmed non-blank input lines, each non-empty with no surrounding whitespace, never more than the lines |
| Zellij.NonBlankTrimmedConcat | app/src/main/java/com/zelland/zellij/ZellijManager.kt:273-275 | the names of two runs of lines are the names of the first followed by those of the second |
| Zellij.NonBlankTrimmedLine | app/src/main/java/com/zelland/zellij/ZellijManager.kt:273-275 | each line contributes, in its place and once, its trimmed text when it is not blank and nothing when it is (order and multiplicity of `filter` then `map`) |

| Zellij.SessionsFrom | app/src/main/java/com/zelland/zellij/ZellijManager.kt:263-282 | a successful non-empty listing gives exactly the trimmed non-blank lines of its output, in order; anything else gives no names |
| Zellij.ListedSessionExists | app/src/main/java/com/zelland/zellij/ZellijManager.kt:288-291 | every listed session is found by its own name |
| Zellij.VersionSpec | app/src/main/java/com/zelland/zellij/ZellijManager.kt:33-45 | one `zellij --version` with a 5 s timeout, read by `VersionFrom`; pinned by `StartIgnoresVersion` for its use in start |
| Zellij.PollSpec | app/src/main/java/com/zelland/zellij/ZellijManager.kt:214-222 | the polling rounds of start: one process check per round until one sees the server; pinned by `PollIssuesOnlyChecks`, `PollFindsFirstSighting` and `PollGivesUp` |
| Zellij.StartSpec | app/src/main/java/com/zelland/zellij/ZellijManager.kt:174-229 | the start procedure: install check, version, running check, then reuse or launch and poll; pinned by the `Start...` lemmas below |
| Zellij.StopSpec | app/src/main/java/com/zelland/zellij/ZellijManager.kt:235-257 | `pkill`, then one running check; pinned by `StopReflectsCheck` |
| Zellij.PollIssuesOnlyChecks | app/src/main/java/com/zelland/zellij/ZellijManager.kt:214-222 | polling only appends process checks, at most one per remaining round; without a client it issues nothing and reports false |
| Zellij.PollFindsFirstSighting | app/src/main/java/com/zelland/zellij/ZellijManager.kt:214-219 | polling stops with success at the first check that sees the server |
| Zellij.PollGivesUp | app/src/main/java/com/zelland/zellij/ZellijManager.kt:214-222 | polling fails only after every remaining round's check saw nothing |
| Zellij.StartRequiresInstall | app/src/main/java/com/zelland/zellij/ZellijManager.kt:176-181 | if `which zellij` fails, start fails as NotInstalled and issues no other command |
| Zellij.StartReusesRunningServer | app/src/main/java/com/zelland/zellij/ZellijManager.kt:190-194 | a running server is reused: 8082, after exactly the three checks, with no start command |
| Zellij.StartReportsLaunchError | app/src/main/java/com/zelland/zellij/ZellijManager.kt:199-206 | a start command that exits non-zero fails with its error stream |
| Zellij.StartFindsLaunchedServer | app/src/main/java/com/zelland/zellij/ZellijManager.kt:211-219 | after a launch, 8082 is returned at the first of at most five checks that sees the server |
| Zellij.StartGivesUpWithLog | app/src/main/java/com/zelland/zellij/ZellijManager.kt:214-228 | five failed checks are followed by `tail -20`, whose output becomes the failure message |
| Zellij.StartLaunchesWhenNotRunning | app/src/main/java/com/zelland/zellij/ZellijManager.kt:174-201 | when installed and not running, start is the three checks followed by the launch |
| Zellij.StartIgnoresVersion | app/src/main/java/com/zelland/zellij/ZellijManager.kt:183-188 | the version answer never changes the outcome of start |
| Zellij.StopReflectsCheck | app/src/main/java/com/zelland/zellij/ZellijManager.kt:235-257 | stop is true iff the check after `pkill` sees nothing; a kill that throws gives false |
| Zellij.ZellijManager.IsZellijInstalled | app/src/main/java/com/zelland/zellij/ZellijManager.kt:25-27 | the log and result of `which zellij` |
| Zellij.ZellijManager.GetZellijVersion | app/src/main/java/com/zelland/zellij/ZellijManager.kt:33-45 | the log and result of `VersionSpec` |
| Zellij.ZellijManager.IsZellijWebRunning | app/src/main/java/com/zelland/zellij/ZellijManager.kt:51-61 | one `pgrep`; true iff it succeeded with non-blank output |
| Zellij.ZellijManager.GetZellijWebPid | app/src/main/java/com/zelland/zellij/ZellijManager.kt:67-81 | one `pgrep`; its trimmed output as an integer, or None |
| Zellij.ZellijManager.GetTailscaleIP | app/src/main/java/com/zelland/zellij/ZellijManager.kt:88-103 | one `tailscale ip -4`; its trimmed non-empty output, or None |
| Zellij.ZellijManager.GetOrCreateAuthToken | app/src/main/java/com/zelland/zellij/ZellijManager.kt:110-167 | one `zellij web --create-token`; the result of `AuthTokenFrom` |
| Zellij.ZellijManager.StartZellijWeb | app/src/main/java/com/zelland/zellij/ZellijManager.kt:174-229 | the log and result of `StartSpec` |
| Zellij.ZellijManager.WaitForServer | app/src/main/java/com/zelland/zellij/ZellijManager.kt:214-222 | the retry loop leaves the log and result of `PollSpec` |
| Zellij.ZellijManager.StopZellijWeb | app/src/main/java/com/zelland/zellij/ZellijManager.kt:235-257 | the log and result of `StopSpec` |
| Zellij.ZellijManager.ListSessions | app/src/main/java/com/zelland/zellij/ZellijManager.kt:263-282 | one listing command; the result of `SessionsFrom` |
| Zellij.ZellijManager.SessionExists | app/src/main/java/com/zelland/zellij/ZellijManager.kt:288-291 | true iff some listed line contains the name |
| Zellij.ZellijManager.KillSession | app/src/main/java/com/zelland/zellij/ZellijManager.kt:297-307 | one `zellij delete-session <name>`; true iff it succeeded |
| Zellij.ZellijManager.GetLogs | app/src/main/java/com/zelland/zellij/ZellijManager.kt:313-323 | one `tail -<n>`; its output, or "Error retrieving logs: " and the message |
| TerminalViewModels.ReachableByCodeClass | app/src/main/java/com/zelland/viewmodel/TerminalViewModel.kt:200-208 | 200..399, 401 and 403 are reachable; other codes and exceptions are not |
| TerminalViewModels.ServerRoot | app/src/main/java/com/zelland/viewmodel/TerminalViewModel.kt:64-71 | a loopback host probes https://10.0.2.2:8082 |
| TerminalViewModels.TestUrl | app/src/main/java/com/zelland/viewmodel/TerminalViewModel.kt:64-71 | the server root, followed by "/" and the session name only when one is set and not blank |
| TerminalViewModels.ConnectUrl | app/src/main/java/com/zelland/viewmodel/TerminalViewModel.kt:149-158 | always the server root, "/" and the session's Zellij name |
| TerminalViewModels.TestConnection | app/src/main/java/com/zelland/viewmodel/TerminalViewModel.kt:60-81 | Success iff the probe is reachable; the error names the test URL |
| TerminalViewModels.TitleFor | app/src/main/java/com/zelland/viewmodel/TerminalViewModel.kt:98 | the name, or the host when the name is blank |
| TerminalViewModels.ZellijNameFor | app/src/main/java/com/zelland/viewmodel/TerminalViewModel.kt:99 | the configured name verbatim, else "session-" and the first 8 characters of the id |
| TerminalViewModels.IndexOfId | app/src/main/java/com/zelland/viewmodel/TerminalViewModel.kt:243 | the first position with the id (`indexOfFirst`), or None when no session has it |
| TerminalViewModels.WithoutId | app/src/main/java/com/zelland/viewmodel/TerminalViewModel.kt:126 | keeps exactly the sessions with another id |
| TerminalViewModels.WithoutIdConcat | app/src/main/java/com/zelland/viewmodel/TerminalViewModel.kt:126 | removal works piecewise, so the survivors keep their order |
| TerminalViewModels.WithoutAbsentId | app/src/main/java/com/zelland/viewmodel/TerminalViewModel.kt:126 | removing an id that nobody has changes nothing |
| TerminalViewModels.WithoutIdIgnoresRemoved | app/src/main/java/com/zelland/viewmodel/TerminalViewModel.kt:122-127 | even if the launched disconnect's update reached the list before the removal, the removal would leave the same list |
| TerminalViewModels.ConnectThenDisconnect | app/src/main/java/com/zelland/viewmodel/TerminalViewModel.kt:214-222 | a session that is connected and then disconnected reads "Disconnected", has no URL and keeps its id and display name |
| TerminalViewModels.AddedConfigIsDuplicate | app/src/main/java/com/zelland/viewmodel/TerminalViewModel.kt:88-95 | once added, a config with a session name is a duplicate; a config without one never is |
| TerminalViewModels.LookupAfterReplace | app/src/main/java/com/zelland/viewmodel/TerminalViewModel.kt:241-249 | after the replacement the id finds the new session at the same place, and the length is unchanged |
| TerminalViewModels.TerminalViewModel.constructor | app/src/main/java/com/zelland/viewmodel/TerminalViewModel.kt:27-50 | the stored list, or none; index 0; no status and no saves yet |
| TerminalViewModels.TerminalViewModel.AddSession | app/src/main/java/com/zelland/viewmodel/TerminalViewModel.kt:86-117 | refused iff a duplicate, and then nothing changes; otherwise one new disconnected session is appended, selected and saved |
| TerminalViewModels.TerminalViewModel.UpdateSession | app/src/main/java/com/zelland/viewmodel/TerminalViewModel.kt:241-249 | the first session with the id is replaced and saved; an unknown id changes and saves nothing |
| TerminalViewModels.TerminalViewModel.DisconnectSession | app/src/main/java/com/zelland/viewmodel/TerminalViewModel.kt:214-229 | the session is marked not connected with no URL, and `Disconnected` is posted, for an unknown id too |
| TerminalViewModels.TerminalViewModel.RemoveSession | app/src/main/java/com/zelland/viewmodel/TerminalViewModel.kt:122-136 | every session with the id is gone and the others keep their order; the index is pulled back only when it fell off a non-empty list; exactly one save, of the final list; the launched disconnect then finds no such session and only reports `Disconnected` |
| TerminalViewModels.TerminalViewModel.ConnectSession | app/src/main/java/com/zelland/viewmodel/TerminalViewModel.kt:142-175 | `Connecting(title)` is posted first. If reachable, the session is connected with the URL and `Connected` is posted; if not, the session is unchanged and the error names the URL. An unknown id does nothing |
| TerminalViewModels.TerminalViewModel.SetActiveSessionIndex | app/src/main/java/com/zelland/viewmodel/TerminalViewModel.kt:234-236 | the index is stored as given |
| DaemonConnections.ConnectStep | app/src/main/java/com/zelland/daemon/DaemonConnectionManager.kt:30-52 | a connect while a socket is held does nothing; otherwise it clears the closing flag and opens one socket; pinned by `ConnectRequest` |
| DaemonConnections.HandleStep | app/src/main/java/com/zelland/daemon/DaemonConnectionManager.kt:103-115 | a ping is answered, anything else forwarded; pinned by `PingAnsweredNotForwarded` and `OtherEnvelopeForwarded` |
| DaemonConnections.FailureStep | app/src/main/java/com/zelland/daemon/DaemonConnectionManager.kt:74-93 | a failure reports, forgets the socket and schedules a reconnect unless closing; pinned by `FailureSchedulesOneReconnect` and `ClosingSuppressesReconnects` |
| DaemonConnections.ConnectRequest | app/src/main/java/com/zelland/daemon/DaemonConnectionManager.kt:30-52 | connect clears the closing flag, opens a socket to "ws://host:port/ws" with the PSK header iff a key is set, and a second connect does nothing |
| DaemonConnections.PingAnsweredNotForwarded | app/src/main/java/com/zelland/daemon/DaemonConnectionManager.kt:103-110 | a ping is answered by exactly one ping stamped now, on the held socket, and never reaches the listener |
| DaemonConnections.OtherEnvelopeForwarded | app/src/main/java/com/zelland/daemon/DaemonConnectionManager.kt:111-113 | any other envelope reaches the listener exactly once, and nothing is sent |
| DaemonConnections.FailureSchedulesOneReconnect | app/src/main/java/com/zelland/daemon/DaemonConnectionManager.kt:69-99 | a failure reports the error (or "Unknown error") and then false, forgets the socket and adds exactly one reconnect unless closing. Closing keeps the socket and closed forgets it; neither schedules a reconnect |
| DaemonConnections.FailureThenReconnect | app/src/main/java/com/zelland/daemon/DaemonConnectionManager.kt:80-91 | a failure while not closing, followed by the thread waking, opens exactly one new socket |
| DaemonConnections.DisconnectIdempotent | app/src/main/java/com/zelland/daemon/DaemonConnectionManager.kt:117-126 | disconnecting twice is disconnecting once, and nothing is sent afterwards |
| DaemonConnections.ClosingSuppressesReconnects | app/src/main/java/com/zelland/daemon/DaemonConnectionManager.kt:81-87 | once closing, no sequence of transport events, sends or thread wake-ups opens a socket |
| DaemonConnections.NoReconnectAfterDisconnect | app/src/main/java/com/zelland/daemon/DaemonConnectionManager.kt:121-126 | after a disconnect nothing reconnects, whatever happens next |
| DaemonConnections.DaemonConnectionManager.constructor | app/src/main/java/com/zelland/daemon/DaemonConnectionManager.kt:25-28 | no socket, not closing, nothing recorded |
| DaemonConnections.DaemonConnectionManager.Connect | app/src/main/java/com/zelland/daemon/DaemonConnectionManager.kt:30-101 | the new state is `ConnectStep` of the old one |
| DaemonConnections.DaemonConnectionManager.OnOpen | app/src/main/java/com/zelland/daemon/DaemonConnectionManager.kt:55-58 | the listener is told the channel is connected |
| DaemonConnections.DaemonConnectionManager.SendEnvelope | app/src/main/java/com/zelland/daemon/DaemonConnectionManager.kt:117-119 | sent on the held socket, or nothing when none is held |
| DaemonConnections.DaemonConnectionManager.OnMessage | app/src/main/java/com/zelland/daemon/DaemonConnectionManager.kt:60-67 | an undecodable frame changes nothing; otherwise the envelope is handled |
| DaemonConnections.DaemonConnectionManager.HandleEnvelope | app/src/main/java/com/zelland/daemon/DaemonConnectionManager.kt:103-115 | the new state is `HandleStep` of the old one |
| DaemonConnections.DaemonConnectionManager.OnClosing | app/src/main/java/com/zelland/daemon/DaemonConnectionManager.kt:69-72 | the listener is told the channel is disconnected, and the socket is kept |
| DaemonConnections.DaemonConnectionManager.OnFailure | app/src/main/java/com/zelland/daemon/DaemonConnectionManager.kt:74-93 | the new state is `FailureStep` of the old one |
| DaemonConnections.DaemonConnectionManager.OnClosed | app/src/main/java/com/zelland/daemon/DaemonConnectionManager.kt:95-99 | the listener is told the channel is disconnected, and the socket is forgotten |
| DaemonConnections.DaemonConnectionManager.Disconnect | app/src/main/java/com/zelland/daemon/DaemonConnectionManager.kt:121-126 | sets the closing flag, closes the held socket with code 1000 and forgets it |
| DaemonConnections.DaemonConnectionManager.ReconnectWakes | app/src/main/java/com/zelland/daemon/DaemonConnectionManager.kt:84-91 | a waiting thread wakes and connects unless the manager is closing by then |
| Kdl.LoadSpec | daemon/internal/kdl/store.go:24-40 | a missing file loads as empty; an error iff the file is there but cannot be opened or decoded; otherwise exactly its annotations |
| Kdl.IndexOfId | daemon/internal/kdl/store.go:61-68 | the first position of the id, or None when no annotation has it |
| Kdl.Upsert | daemon/internal/kdl/store.go:60-71 | an existing id keeps the length; a new id adds one at the end, after the old list; every other position is unchanged |
| Kdl.UpsertThenLookup | daemon/internal/kdl/store_test.go:63-79 | after an upsert the id finds exactly the new annotation (whole-record replacement), and a repeated upsert changes nothing |
| Kdl.UpsertKeepsOtherIds | daemon/internal/kdl/store.go:60-71 | every other id finds what it found before |
| Kdl.UpsertKeepsIdsDistinct | daemon/internal/kdl/store.go:60-71 | distinct ids stay distinct |
| Kdl.AppendSpec | daemon/internal/kdl/store.go:54-74 | the files after an append: the upserted list when the file loads and can be created, else unchanged; pinned by `AppendThenLoad` |
| Kdl.AppendError | daemon/internal/kdl/store.go:54-74 | no error iff the file loads and can be created; a create error only for a path that cannot be created; a load error is returned before any write |
| Kdl.AppendThenLoad | daemon/internal/kdl/store.go:54-74 | after an append that reports no error the file loads as the upserted list and finds the new annotation; after one that reports an error nothing changed; no other file changes |
| Kdl.FileSystem.Load | daemon/internal/kdl/store.go:24-40 | the result is `LoadSpec` of the files |
| Kdl.FileSystem.Save | daemon/internal/kdl/store.go:42-51 | a path that cannot be created gives the create error and changes nothing; any other path then holds exactly the whole list |
| Kdl.FileSystem.Append | daemon/internal/kdl/store.go:54-74 | the scan loop and the save leave `AppendSpec` of the old files and return `AppendError`: the load error, else the create error, else none |
| Kdl.SaveThenLoad | daemon/internal/kdl/store_test.go:37-61 | saving and then loading gives back the same annotations, in order |
| Kdl.StoreTestScenario | daemon/internal/kdl/store_test.go:63-94 | the store test: an update by id keeps two annotations and replaces the first; a new id makes three |
| Assets.HexEncode | daemon/internal/assets/manager.go:71-75 | two lowercase hexadecimal digits per byte |
| Assets.HexRoundTrip | daemon/internal/assets/manager.go:71-75 | decoding gives the bytes back, so the encoding is injective |
| Assets.GenerateId | daemon/internal/assets/manager.go:71-75 | 16 lowercase hexadecimal characters that decode to the 8 random bytes |
| Assets.Base | daemon/internal/assets/manager.go:57 | `filepath.Base`: never empty, and slash-free unless it is "/" |
| Assets.BaseOfNestedPath | daemon/internal/assets/manager.go:57 | a request for `<anything>/<id>` looks up the id |
| Assets.Serve | daemon/internal/assets/manager.go:56-69 | serves a file iff the last path element names an entry that has not expired, and then serves that entry's file |
| Assets.Expired | daemon/internal/assets/manager.go:63 | `time.Now().After(expiresAt)`, strictly after; pinned by `RegisteredServedForLifetime` |
| Assets.Live | daemon/internal/assets/manager.go:80-86 | keeps exactly the unexpired entries, unchanged |
| Assets.SweepInvisible | daemon/internal/assets/manager.go:77-89 | a sweep does not change any lookup made at its time or later, and a second sweep removes nothing |
| Assets.RegisteredServedForLifetime | daemon/internal/assets/manager.go:45-66 | a file registered at t is served until exactly t + 30 min, and not after |
| Assets.Manager.constructor | daemon/internal/assets/manager.go:23-29 | the registry starts empty |
| Assets.Manager.Register | daemon/internal/assets/manager.go:33-53 | a resolution or stat failure returns an empty id and an error and leaves the map unchanged; otherwise exactly one entry is added under the new id, expiring 30 minutes later |
| Assets.Manager.ServeHTTP | daemon/internal/assets/manager.go:56-69 | the response is `Serve` of the registry |
| Assets.Manager.CleanupSweep | daemon/internal/assets/manager.go:77-89 | the delete loop leaves exactly `Live` of the old registry |
| Server.SplitHost | daemon/internal/server/server.go:72 | `net.SplitHostPort`'s host; pinned by `PlainAddressAdmission`, `BracketedLoopbackAdmitted` and `NoPortRefused` |
| Server.LoopbackAdmits | daemon/internal/server/server.go:70-86 | the address splits and its host is 127.0.0.1, ::1 or localhost; pinned by the same lemmas |
| Server.PlainAddressAdmission | daemon/internal/server/server.go:70-86 | a plain `host:port` address splits into its host and is admitted iff the host is 127.0.0.1, ::1 or localhost |
| Server.BracketedLoopbackAdmitted | daemon/internal/server/server.go:70-86 | "[::1]:port" is admitted |
| Server.NoPortRefused | daemon/internal/server/server.go:72-77 | an address that does not split is refused |
| Server.Ext | daemon/internal/server/server.go:236 | `filepath.Ext`: a suffix of the path that starts with its only dot and contains no slash |
| Server.KdlPath | daemon/internal/server/server.go:234-237 | the path without its extension, followed by ".kdl" |
| Server.KdlPathReplacesExtension | daemon/internal/server/server.go:234-237 | `<stem>.<ext>` annotates into `<stem>.kdl` |
| Server.ExtOfDotted | daemon/internal/server/server.go:236 | the extension of `<stem>.<ext>` is `.<ext>` |
| Server.NoDotNoExt | daemon/internal/server/server.go:234-237 | a path without a dot gets ".kdl" appended |
| Server.MarkdownExample | daemon/internal/server/server.go:234-237 | "/foo/bar.md" annotates into "/foo/bar.kdl" |
| Server.AnnotatedFile | daemon/internal/server/server.go:226-232 | the original path of the asset the reference names, else the reference itself |
| Server.ToStored | daemon/internal/server/server.go:239-245 | every field is copied, and the user is empty |
| Server.MessageEffect | daemon/internal/server/server.go:216-252 | only an annotation writes, appending to the `.kdl` file beside the document it refers to; pinned by `OnlyAnnotationsWrite` and `AnnotationOnShownAsset` |
| Server.SessionEffect | daemon/internal/server/server.go:147-178 | the decoded frames of one connection applied in order, undecodable ones skipped; pinned by `OnlyAnnotationsWrite` |
| Server.OnlyAnnotationsWrite | daemon/internal/server/server.go:216-223 | pings, views, empty envelopes and undecodable frames never change a file |
| Server.AnnotationOnShownAsset | daemon/internal/server/server.go:225-252 | an annotation on an asset shown from /foo/bar.md is appended to /foo/bar.kdl |
| Server.Server.constructor | daemon/internal/server/server.go:34-48 | no clients, no asset paths, an empty registry |
| Server.Server.RegisterClient | daemon/internal/server/server.go:180-184 | adds exactly that connection |
| Server.Server.UnregisterClient | daemon/internal/server/server.go:186-191 | removes exactly that connection |
| Server.Server.SendPing | daemon/internal/server/server.go:193-202 | one ping stamped now, to that connection |
| Server.Server.Broadcast | daemon/internal/server/server.go:254-261 | the envelope goes to the clients connected at that moment |
| Server.Server.Trigger | daemon/internal/server/server.go:70-100 | a non-loopback caller gets 403 and nothing changes; a loopback caller gets exactly the reply and the state change of `GenericTrigger` (the shared `TriggerEffect`) |
| Server.Server.GenericTrigger | daemon/internal/server/server.go:102-145 | 405, then 400 for the body, then 400 for the register failure, and none of these change anything. A shown file is recorded under its new id with the path from the request and is broadcast as OpenView("/assets/"+id, type, title) |
| Server.Server.HandleMessage | daemon/internal/server/server.go:216-223 | only an annotation writes, as `MessageEffect` says |
| Server.Server.HandleAnnotation | daemon/internal/server/server.go:225-252 | the annotation is upserted into the `.kdl` file beside the resolved document |
| Server.Server.HandleWebSocket | daemon/internal/server/server.go:147-178 | a connection is registered, greeted with one ping and unregistered; its decoded frames are applied in order, and undecodable ones are skipped |
| Modifiers.Cycle | app/src/main/java/com/zelland/ui/TerminalFragment.kt:183-192 | OFF to ON, ON to LOCKED within the threshold and to OFF otherwise, LOCKED to OFF; pinned by `CycleProperties` |
| Modifiers.CycleProperties | app/src/main/java/com/zelland/ui/TerminalFragment.kt:183-192 | LOCKED iff ON is tapped again within the threshold; ON iff the state was OFF; every tap changes the state |
| Modifiers.SlowSecondTapTurnsOff | app/src/main/java/com/zelland/ui/TerminalScreen.kt:370-378 | a second tap 300 ms or more later turns the modifier off |
| Modifiers.DoubleTapLocks | app/src/main/java/com/zelland/ui/TerminalScreen.kt:370-378 | a quick double tap locks the modifier, and a third tap unlocks it |
| Modifiers.MetaStateOf | app/src/main/java/com/zelland/ui/TerminalFragment.kt:116-128 | the bit pair of every modifier that is not OFF; pinned by `MetaStateBits` |
| Modifiers.MetaStateBits | app/src/main/java/com/zelland/ui/TerminalFragment.kt:116-128 | a modifier's bit pair is in the meta state iff it is not OFF, whole or not at all; no other bits are; empty iff all are OFF |
| Modifiers.ClickStep | app/src/main/java/com/zelland/ui/TerminalFragment.kt:161-180 | a tap cycles that modifier and records its tap time; pinned by `ClickChangesOnlyThatModifier` |
| Modifiers.ClickChangesOnlyThatModifier | app/src/main/java/com/zelland/ui/TerminalFragment.kt:161-180 | a tap cycles that modifier, records its tap time and leaves the others alone |
| Modifiers.ResetOneShot | app/src/main/java/com/zelland/ui/TerminalFragment.kt:130-148 | every ON modifier turns OFF; pinned by `ResetProperties` |
| Modifiers.UsedStep | app/src/main/java/com/zelland/ui/TerminalFragment.kt:130-148 | the reset, then a restyle when something was ON (fragment) or one callback (screen); pinned by `FragmentUseIdempotent` and `ScreenUseCallsBackOnce` |
| Modifiers.ResetProperties | app/src/main/java/com/zelland/ui/TerminalFragment.kt:130-148 | nothing is ON afterwards; LOCKED stays LOCKED; tap times are kept; only locked bits remain; a change iff something was ON; a second reset does nothing |
| Modifiers.FragmentUseIdempotent | app/src/main/java/com/zelland/ui/TerminalFragment.kt:130-148 | using the modifiers twice is using them once, and the buttons are restyled iff the modifiers changed |
| Modifiers.ScreenUseCallsBackOnce | app/src/main/java/com/zelland/ui/TerminalScreen.kt:78-83 | the screen's provider calls its callback exactly once per use, with the same reset |
| Modifiers.ModifierProvider.constructor | app/src/main/java/com/zelland/ui/TerminalFragment.kt:60-69 | every modifier starts OFF |
| Modifiers.ModifierProvider.GetMetaState | app/src/main/java/com/zelland/ui/TerminalFragment.kt:116-128 | the state built up step by step is `MetaStateOf` of the modifiers |
| Modifiers.ModifierProvider.OnModifierUsed | app/src/main/java/com/zelland/ui/TerminalFragment.kt:130-148 | the reset and the host's follow-up, as `UsedStep` says |
| Modifiers.ModifierProvider.RefreshVisuals | app/src/main/java/com/zelland/ui/TerminalFragment.kt:200-204 | one more restyle of the buttons |
| Modifiers.ModifierProvider.Click | app/src/main/java/com/zelland/ui/TerminalFragment.kt:161-180 | the modifiers become `ClickStep` of the old ones, and nothing else changes |
| TerminalWebViews.KeyScript | app/src/main/java/com/zelland/ui/TerminalFragment.kt:293-307 | the page script sends the key with each flag set iff that modifier's ON bit is in the meta state |
| TerminalWebViews.KeyScriptFlags | app/src/main/java/com/zelland/ui/TerminalFragment.kt:293-307 | the script's flags are exactly the modifiers that are not OFF |
| TerminalWebViews.LowercaseLetter | app/src/main/java/com/zelland/ui/TerminalWebView.kt:132-138 | only lowercase a-z letters are returned |
| TerminalWebViews.KeyCodeForChar | app/src/main/java/com/zelland/ui/TerminalWebView.kt:132-138 | letters to `KEYCODE_A` onwards in either case, digits to `KEYCODE_0` onwards, else 0; pinned by `KeyCodeForCharProperties` |
| TerminalWebViews.KeyCodeForCharProperties | app/src/main/java/com/zelland/ui/TerminalWebView.kt:132-138 | non-zero iff a letter or a digit; letters map to `KEYCODE_A`.. and digits to `KEYCODE_0`.., in disjoint ranges; case is ignored; two characters share a code only when they are the same letter or digit |
| TerminalWebViews.NeedsMerge | app/src/main/java/com/zelland/ui/TerminalWebView.kt:149 | some active bit is missing from the event; pinned by `MergedProperties` and `CarriesActiveBits` |
| TerminalWebViews.Merged | app/src/main/java/com/zelland/ui/TerminalWebView.kt:142-170 | the event handed on; pinned by `MergedProperties` |
| TerminalWebViews.MergedProperties | app/src/main/java/com/zelland/ui/TerminalWebView.kt:142-170 | the event handed on is the event with the active bits added, rebuilt or not; every other field is kept; merging again changes nothing |
| TerminalWebViews.CarriesActiveBits | app/src/main/java/com/zelland/ui/TerminalWebView.kt:143-149 | an event that already carries the active bits goes through as it is |
| TerminalWebViews.TerminalWebView.constructor | app/src/main/java/com/zelland/ui/TerminalWebView.kt:27 | no provider, nothing dispatched yet |
| TerminalWebViews.TerminalWebView.DispatchKeyEvent | app/src/main/java/com/zelland/ui/TerminalWebView.kt:142-170 | without a provider the event goes through unchanged. With one, the merged event goes through, and the modifiers are used iff the event was rebuilt and is a key-up |
| TerminalWebViews.TerminalWebView.CommitText | app/src/main/java/com/zelland/ui/TerminalWebView.kt:106-130 | intercepted iff a provider, active modifiers, one character and a key code: down and up carrying the modifiers (and Shift for upper case), one use, true. Otherwise the text goes to the wrapped connection unchanged |
| TerminalFragments.TerminalFragment.constructor | app/src/main/java/com/zelland/ui/TerminalFragment.kt:104 | the fragment becomes its web view's provider, with every modifier OFF |
| TerminalFragments.TerminalFragment.SendKey | app/src/main/java/com/zelland/ui/TerminalFragment.kt:285-312 | a key code goes as down and up carrying the active modifiers, otherwise as a page script with their flags; then one use of the modifiers |
| TerminalFragments.TerminalFragment.ClickModifier | app/src/main/java/com/zelland/ui/TerminalFragment.kt:161-180 | that modifier cycles, its tap is recorded and the buttons are restyled once |
| TerminalFragments.OneShotCtrl | app/src/main/java/com/zelland/ui/TerminalFragment.kt:130-148 | a key sent with Ctrl tapped once carries the Ctrl bits and turns Ctrl off again |
| TerminalScreens.SwipeKeyCode | app/src/main/java/com/zelland/ui/TerminalScreen.kt:166-171 | DPAD_LEFT iff the swipe is LEFT, DPAD_RIGHT iff it is RIGHT |
| TerminalScreens.TerminalScreen.constructor | app/src/main/java/com/zelland/ui/TerminalScreen.kt:53-83 | a fresh provider, with every modifier OFF, and no web view yet |
| TerminalScreens.TerminalScreen.CreateWebView | app/src/main/java/com/zelland/ui/TerminalScreen.kt:159-177 | the new web view is remembered and uses the screen's provider |
| TerminalScreens.TerminalScreen.DispatchKeyEventWithModifiers | app/src/main/java/com/zelland/ui/TerminalScreen.kt:87-93 | down and up, merged with the active modifiers; one use iff the key-up was rebuilt; nothing without a web view |
| TerminalScreens.TerminalScreen.SendKey | app/src/main/java/com/zelland/ui/TerminalScreen.kt:95-119 | a key code goes as down and up, otherwise as a page script, each only with a web view; the modifiers count as used either way |
| TerminalScreens.TerminalScreen.OnTabSwipe | app/src/main/java/com/zelland/ui/TerminalScreen.kt:166-173 | the arrow key carries the Alt bits plus the active ones; a use iff something other than Alt is active |
| TerminalScreens.TerminalScreen.ClickModifier | app/src/main/java/com/zelland/ui/TerminalScreen.kt:128-145 | that modifier cycles and now is recorded as its tap time |
| TerminalScreens.SwipeWithOneShotCtrl | app/src/main/java/com/zelland/ui/TerminalScreen.kt:166-173 | with Ctrl tapped once a swipe sends Ctrl+Alt+arrow and releases Ctrl |

## Left out

- Strings are sequences of Unicode scalar values. Kotlin's UTF-16 lengths (`take(8)`, `length > 20`) and Go's byte strings are counted in those units only for the characters involved.
- Delays, retries timed by sleeps, logging, coroutines and dispatchers, `LiveData` posting, and Go's mutexes and goroutines are not modelled.
  - The reconnect thread is a counter of waiting threads.
  - The cleanup ticker is one sweep.
  - A broadcast records the client set it was sent to.
- Real I/O is not modelled: sshj, OkHttp, the HTTPS probe with its trust-all SSL, gorilla/websocket, `http.ServeFile`, SharedPreferences, and the protobuf, KDL, JSON and Gson codecs. Codecs are opaque: a frame or body either decodes to a value or does not.
- `filepath.Abs`, `os.Stat`, `crypto/rand` and the clocks are parameters of the operations that use them.
- SshConnections.SSHConnectionManager.Connect: loading the private key and the authentication exchange are folded into one outcome, `authOk`. A key that fails to load counts as failed authentication.
- TerminalViewModels.TestConnection: the `catch` around the URL building cannot be reached in the code, so it is not modelled.
- The HTTP error texts and response bodies of the daemon (`http.Error` messages, the JSON reply) are not modelled; the status code is kept.
- Server.Server.HandleAnnotation: an annotation without its data part makes the Go code dereference nil and panic. The model always carries data.
- The `Type` field of the annotation action is not used in the code, and is not modelled.
- DaemonConnections: the `client` field of the manager is never assigned, because the local `client` shadows it. It carries no behaviour and is not modelled.
- Modifiers.ModifierProvider.OnModifierUsed: the fragment restyles its buttons through `activity?.runOnUiThread`. The model assumes the fragment is attached, so the restyle always happens.
- TerminalWebViews.KeyScript: the page script's JavaScript text is represented by what it dispatches (a key and three modifier flags). The quoting of `key` inside the script is not modelled.
- Modifiers: a meta state is the set of its bit positions, with `or` as union and `and` as intersection. Only the eight bits the views use are named.
- TerminalWebViews.IsUpperCase: exact only on the characters that have a key code, which are the only ones for which the result is used.
- TerminalWebViews.LowercaseLetter: models `lowercaseChar` only where its result is an ASCII letter.
- Modifiers.Cycle: the subtraction of two `Long` clock readings is unbounded here. Wrap-around after 2^63 ms is not modelled.
- The quick-key buttons' wiring to `sendKey`, the soft keyboard, the D-pad overlay and its hit-testing, `onFling` and `FourWayArrowButton` (float gesture thresholds), and page loading and CSS injection are not modelled.
- Ping timestamps are milliseconds on the client and seconds on the daemon. Each side is modelled as written, and the two are not related.
- Zellij.ZellijManager.WaitForServer: the retry loop of `startZellijWeb` is a method of its own, so that it can carry its loop invariant.
- The daemon's `main` programs, its configuration loading, the command-line client, the mock client, and the client's `MainActivity`, `MainScreen`, `ViewerScreen`, `ZellandApp` and `SessionAdapter` screens are not part of this model.
- Zellij.StripAnsi: the function's own contract states only that the text does not grow. Its behaviour is pinned down by `StripAnsiNoEsc`, `StripAnsiDropsSgr` and `StripAnsiKeepsPlainChar`.
- SshConfigs: `TerminalViewModel.kt` reads `config.zellijSessionName`, but `SSHConfig.kt` does not declare that field. The model follows the code that uses it and gives the settings an optional session name.
- Kdl.FileSystem.Save: an encode or write error after the file was created is not modelled; `os.Create` failing is, through the paths that cannot be created. A failed encode would leave the file truncated.
- Text.ToIntOrNull: accepts ASCII digits only. Kotlin's `toIntOrNull` also accepts other Unicode decimal digits, so a version such as "٠.٤٣" is rejected here and accepted there. Zellij prints ASCII versions.
- Session names are used as given: there is no slug or escaping of the Zellij session name in the URL.
