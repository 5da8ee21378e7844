/** The session collection of the client (`TerminalViewModel`): the list of
    configured sessions, the selected index, the connection status shown to
    the user and the snapshots written to preferences.

    The HTTPS reachability probe is a parameter (`Probe`): the response code
    the server gave, or an exception. Fresh session identifiers (random
    UUIDs) and the wall clock are parameters too. */
module TerminalViewModels {
  import opened Wrappers
  import opened Text
  import opened SshConfigs
  import opened TerminalSessions
  import SshConnections

  /** What a `HEAD` request to the server answered. */
  datatype Probe = Responded(code: int) | ProbeThrew

  datatype ConnectionResult = Success(message: string) | Error(message: string)

  datatype ConnectionStatus =
    | Connecting(sessionName: string)
    | Connected(sessionName: string)
    | Failed(message: string)
    | Disconnected

  /** `checkDirectConnection`: the server is there when it answers with a
      success or redirect code, or asks for authentication. */
  predicate Reachable(p: Probe) {
    p.Responded? && (200 <= p.code <= 399 || p.code == 401 || p.code == 403)
  }

  /** Which answers count as reachable, by class of status code. */
  lemma ReachableByCodeClass(code: int)
    ensures 200 <= code < 400 ==> Reachable(Responded(code))
    ensures code == 401 || code == 403 ==> Reachable(Responded(code))
    ensures code < 200 || code >= 404 ==> !Reachable(Responded(code))
    ensures code == 400 || code == 402 ==> !Reachable(Responded(code))
    ensures !Reachable(ProbeThrew)
  {
  }

  /** The scheme, rewritten host and port every probe goes to. */
  function ServerRoot(host: string): (r: string)
    ensures host == "localhost" || host == "127.0.0.1" ==> r == "https://10.0.2.2:8082"
  {
    "https://" + SshConnections.DialHost(host) + ":8082"
  }

  /** A configured Zellij session name that is present and not blank. */
  predicate NamesSession(config: SSHConfig) {
    config.zellijSessionName.Some? && !IsBlank(config.zellijSessionName.value)
  }

  /** `testConnection`'s URL: the server root, followed by the session name
      as a path when one is configured. */
  function TestUrl(config: SSHConfig): (url: string)
    ensures NamesSession(config) ==> url == ServerRoot(config.host) + "/" + config.zellijSessionName.value
    ensures !NamesSession(config) ==> url == ServerRoot(config.host)
  {
    var path := if NamesSession(config) then "/" + config.zellijSessionName.value else "";
    ServerRoot(config.host) + path
  }

  /** `connectSession`'s URL: always the server root, a slash and the
      session's Zellij name. */
  function ConnectUrl(s: TerminalSession): (url: string)
    ensures url == ServerRoot(s.sshConfig.host) + "/" + s.zellijSessionName
  {
    ServerRoot(s.sshConfig.host) + "/" + s.zellijSessionName
  }

  /** `testConnection`: success exactly when the probe of the test URL shows
      the server reachable, else an error naming the URL. */
  function TestConnection(config: SSHConfig, probe: Probe): (r: ConnectionResult)
    ensures r.Success? <==> Reachable(probe)
    ensures r.Success? ==> r.message == "Connection successful!"
    ensures r.Error? ==> r.message == "Could not reach Zellij server at " + TestUrl(config)
  {
    if Reachable(probe) then ConnectionResult.Success("Connection successful!")
    else ConnectionResult.Error("Could not reach Zellij server at " + TestUrl(config))
  }

  /** A session already targets this host and Zellij session name. A config
      without a name is never equal to a session's (non-null) name. */
  predicate IsDuplicate(sessions: seq<TerminalSession>, config: SSHConfig) {
    exists i :: 0 <= i < |sessions| && sessions[i].sshConfig.host == config.host
                && config.zellijSessionName == Some(sessions[i].zellijSessionName)
  }

  /** The display name, falling back to the host when it is blank. */
  function TitleFor(config: SSHConfig): (t: string)
    ensures !IsBlank(config.name) ==> t == config.name
    ensures IsBlank(config.name) ==> t == config.host
  {
    if IsBlank(config.name) then config.host else config.name
  }

  /** The Zellij session name: the configured one verbatim, else "session-"
      and the first eight characters of the session identifier. */
  function ZellijNameFor(config: SSHConfig, id: string): (n: string)
    ensures config.zellijSessionName.Some? ==> n == config.zellijSessionName.value
    ensures config.zellijSessionName.None? ==> n == "session-" + Take(id, 8)
  {
    config.zellijSessionName.GetOr("session-" + Take(id, 8))
  }

  /** The session `addSession` creates for a config. */
  function SessionFor(config: SSHConfig, id: string, now: int): TerminalSession {
    NewSession(id, TitleFor(config), config, ZellijNameFor(config, id), now)
  }

  /** The position of the first session with this identifier. */
  function IndexOfId(sessions: seq<TerminalSession>, id: string): (r: Option<nat>)
    ensures r.Some? ==> r.value < |sessions| && sessions[r.value].id == id
    ensures r.Some? ==> forall j :: 0 <= j < r.value ==> sessions[j].id != id
    ensures r.None? ==> forall j :: 0 <= j < |sessions| ==> sessions[j].id != id
  {
    if sessions == [] then None
    else if sessions[0].id == id then Some(0)
    else match IndexOfId(sessions[1..], id)
      case None => None
      case Some(i) => Some(i + 1)
  }

  /** `removeAll { it.id == id }`: every session but those with this
      identifier, in their order. */
  function WithoutId(sessions: seq<TerminalSession>, id: string): (r: seq<TerminalSession>)
    ensures |r| <= |sessions|
    ensures forall x :: x in r <==> x in sessions && x.id != id
  {
    if sessions == [] then []
    else (if sessions[0].id == id then [] else [sessions[0]]) + WithoutId(sessions[1..], id)
  }

  /** Removal works piecewise, so it keeps the survivors' relative order. */
  lemma {:induction false} WithoutIdConcat(a: seq<TerminalSession>, b: seq<TerminalSession>, id: string)
    ensures WithoutId(a + b, id) == WithoutId(a, id) + WithoutId(b, id)
    decreases |a|
  {
    if a != [] {
      assert (a + b)[1..] == a[1..] + b;
      WithoutIdConcat(a[1..], b, id);
    } else {
      assert a + b == b;
    }
  }

  /** Removing an identifier nobody has changes nothing. */
  lemma {:induction false} WithoutAbsentId(sessions: seq<TerminalSession>, id: string)
    requires IndexOfId(sessions, id).None?
    ensures WithoutId(sessions, id) == sessions
    decreases |sessions|
  {
    if sessions != [] {
      WithoutAbsentId(sessions[1..], id);
      assert [sessions[0]] + sessions[1..] == sessions;
    }
  }

  /** Rewriting a session that is about to be removed does not change what
      removal leaves. */
  lemma {:induction false} WithoutIdIgnoresRemoved(sessions: seq<TerminalSession>, i: nat,
                                                  s: TerminalSession, id: string)
    requires i < |sessions| && sessions[i].id == id && s.id == id
    ensures WithoutId(sessions[i := s], id) == WithoutId(sessions, id)
    decreases |sessions|
  {
    if i > 0 {
      WithoutIdIgnoresRemoved(sessions[1..], i - 1, s, id);
      assert sessions[i := s][1..] == sessions[1..][i - 1 := s];
    }
  }

  /** The session marked as connected through `url` at time `now`. */
  function MarkConnected(s: TerminalSession, url: string, now: int): TerminalSession {
    s.(isConnected := true, localUrl := Some(url), lastConnected := now)
  }

  /** The session marked as no longer connected. */
  function MarkDisconnected(s: TerminalSession): TerminalSession {
    s.(isConnected := false, localUrl := None)
  }

  /** Connecting then disconnecting leaves a session that reads
      "Disconnected" (its connection time is positive), with no URL, under
      the same display name. */
  lemma ConnectThenDisconnect(s: TerminalSession, url: string, now: int)
    requires now > 0
    ensures StatusText(MarkConnected(s, url, now)) == "Connected"
    ensures StatusText(MarkDisconnected(MarkConnected(s, url, now))) == "Disconnected"
    ensures MarkDisconnected(MarkConnected(s, url, now)).localUrl.None?
    ensures DisplayName(MarkDisconnected(MarkConnected(s, url, now))) == DisplayName(s)
    ensures MarkDisconnected(MarkConnected(s, url, now)).id == s.id
  {
  }

  /** A config naming a session is a duplicate once it has been added, so a
      second add is refused; a config without a name never is. */
  lemma AddedConfigIsDuplicate(sessions: seq<TerminalSession>, config: SSHConfig, id: string, now: int)
    ensures config.zellijSessionName.Some? ==> IsDuplicate(sessions + [SessionFor(config, id, now)], config)
    ensures config.zellijSessionName.None? ==> !IsDuplicate(sessions + [SessionFor(config, id, now)], config)
  {
    var added := sessions + [SessionFor(config, id, now)];
    if config.zellijSessionName.Some? {
      assert added[|sessions|] == SessionFor(config, id, now);
    }
  }

  /** After replacing the first session with an identifier, looking the
      identifier up finds the replacement at the same place. */
  lemma {:induction false} LookupAfterReplace(sessions: seq<TerminalSession>, i: nat, s: TerminalSession)
    requires IndexOfId(sessions, s.id) == Some(i)
    ensures IndexOfId(sessions[i := s], s.id) == Some(i)
    ensures |sessions[i := s]| == |sessions|
    decreases |sessions|
  {
    if i > 0 {
      assert sessions[i := s][1..] == sessions[1..][i - 1 := s];
      LookupAfterReplace(sessions[1..], i - 1, s);
    }
  }

  class TerminalViewModel {
    var sessions: seq<TerminalSession>
    var activeSessionIndex: int
    /** Every connection status posted, oldest first; the status shown is
        the last one. */
    var statuses: seq<ConnectionStatus>
    /** Every list written to preferences, oldest first. */
    var saves: seq<seq<TerminalSession>>

    /** Loads the stored list, if preferences hold one; the first session is
        selected and no status is posted yet. */
    constructor (stored: Option<seq<TerminalSession>>)
      ensures sessions == stored.GetOr([]) && activeSessionIndex == 0
      ensures statuses == [] && saves == []
    {
      sessions := stored.GetOr([]);
      activeSessionIndex := 0;
      statuses := [];
      saves := [];
    }

    /** Refuses a duplicate; otherwise appends a new disconnected session
        under `sessionId`, selects it and saves. */
    method AddSession(config: SSHConfig, sessionId: string, now: int) returns (added: bool)
      modifies this
      ensures added <==> !IsDuplicate(old(sessions), config)
      ensures !added ==> unchanged(this)
      ensures added ==> sessions == old(sessions) + [SessionFor(config, sessionId, now)]
      ensures added ==> activeSessionIndex == |sessions| - 1 && saves == old(saves) + [sessions]
      ensures statuses == old(statuses)
    {
      if exists i :: 0 <= i < |sessions| && sessions[i].sshConfig.host == config.host
                     && config.zellijSessionName == Some(sessions[i].zellijSessionName) {
        return false;
      }
      var title := if IsBlank(config.name) then config.host else config.name;
      var zellijName := if config.zellijSessionName.Some? then config.zellijSessionName.value
                        else "session-" + Take(sessionId, 8);
      var current := sessions + [NewSession(sessionId, title, config, zellijName, now)];
      sessions := current;
      activeSessionIndex := |current| - 1;
      saves := saves + [current];
      added := true;
    }

    /** Replaces the first session with the same identifier and saves; does
        nothing when there is none. */
    method UpdateSession(updated: TerminalSession)
      modifies this`sessions, this`saves
      ensures IndexOfId(old(sessions), updated.id).None? ==> sessions == old(sessions) && saves == old(saves)
      ensures IndexOfId(old(sessions), updated.id).Some? ==>
        && sessions == old(sessions)[IndexOfId(old(sessions), updated.id).value := updated]
        && saves == old(saves) + [sessions]
    {
      var index := IndexOfId(sessions, updated.id);
      if index.Some? {
        sessions := sessions[index.value := updated];
        saves := saves + [sessions];
      }
    }

    /** Marks the session disconnected when it exists, and reports
        `Disconnected` either way. */
    method DisconnectSession(sessionId: string)
      modifies this`sessions, this`saves, this`statuses
      ensures var i := IndexOfId(old(sessions), sessionId);
              && (i.None? ==> sessions == old(sessions) && saves == old(saves))
              && (i.Some? ==> sessions == old(sessions)[i.value := MarkDisconnected(old(sessions)[i.value])]
                              && saves == old(saves) + [sessions])
      ensures statuses == old(statuses) + [Disconnected]
    {
      var found := IndexOfId(sessions, sessionId);
      if found.Some? {
        UpdateSession(MarkDisconnected(sessions[found.value]));
      }
      statuses := statuses + [Disconnected];
    }

    /** Removes every session with the identifier, pulls the selection back
        onto the last session when it fell off the end, and saves. The
        disconnect it launches first runs on another dispatcher and reaches
        `updateSession` only after the removal: by then no session has the
        identifier, so it only reports `Disconnected`. */
    method RemoveSession(sessionId: string)
      modifies this
      ensures sessions == WithoutId(old(sessions), sessionId)
      ensures IndexOfId(sessions, sessionId).None?
      ensures activeSessionIndex ==
        if old(activeSessionIndex) >= |sessions| && |sessions| > 0 then |sessions| - 1
        else old(activeSessionIndex)
      ensures 0 <= old(activeSessionIndex) && sessions != [] ==> 0 <= activeSessionIndex < |sessions|
      ensures statuses == old(statuses) + [Disconnected]
      ensures saves == old(saves) + [sessions]
    {
      var current := WithoutId(sessions, sessionId);
      sessions := current;
      if activeSessionIndex >= |current| && |current| > 0 {
        activeSessionIndex := |current| - 1;
      }
      saves := saves + [current];
      DisconnectSession(sessionId);
    }

    /** Reports `Connecting`, probes the session's URL and either marks the
        session connected and reports `Connected`, or reports the unreachable
        URL and leaves the session alone. An unknown identifier does
        nothing. */
    method ConnectSession(sessionId: string, probe: Probe, now: int)
      modifies this`sessions, this`saves, this`statuses
      ensures IndexOfId(old(sessions), sessionId).None? ==>
        sessions == old(sessions) && saves == old(saves) && statuses == old(statuses)
      ensures IndexOfId(old(sessions), sessionId).Some? ==>
        var i := IndexOfId(old(sessions), sessionId).value;
        var s := old(sessions)[i];
        && |statuses| == |old(statuses)| + 2
        && statuses[..|old(statuses)| + 1] == old(statuses) + [Connecting(s.title)]
        && (Reachable(probe) ==>
              && sessions == old(sessions)[i := MarkConnected(s, ConnectUrl(s), now)]
              && saves == old(saves) + [sessions]
              && statuses[|statuses| - 1] == Connected("Connected to " + s.title))
        && (!Reachable(probe) ==>
              && sessions == old(sessions) && saves == old(saves)
              && statuses[|statuses| - 1] == Failed("Could not reach server at " + ConnectUrl(s)))
    {
      var found := IndexOfId(sessions, sessionId);
      if found.None? {
        return;
      }
      var session := sessions[found.value];
      statuses := statuses + [Connecting(session.title)];
      var url := "https://" + SshConnections.DialHost(session.sshConfig.host) + ":8082/" + session.zellijSessionName;
      assert url == ConnectUrl(session);
      if Reachable(probe) {
        assert MarkConnected(session, url, now).id == sessionId;
        UpdateSession(MarkConnected(session, url, now));
        statuses := statuses + [Connected("Connected to " + session.title)];
      } else {
        statuses := statuses + [Failed("Could not reach server at " + url)];
      }
    }

    method SetActiveSessionIndex(index: int)
      modifies this`activeSessionIndex
      ensures activeSessionIndex == index
    {
      activeSessionIndex := index;
    }
  }
}
