/** The daemon's HTTP and WebSocket server (`server.Server`): loopback-only
    trigger endpoints that register a file and tell every client to show it,
    a WebSocket endpoint that greets each client with a ping and files the
    annotations it sends next to the shown document.

    Connections are numbered. Every frame a connection writes is recorded;
    a broadcast records the clients connected at that moment. The request
    decoding, the asset manager's file-system checks and the clocks are
    parameters. */
module Server {
  import opened Wrappers
  import opened Proto
  import Assets
  import Kdl

  /** The trigger request body. */
  datatype ShowRequest = ShowRequest(filePath: string, title: string)

  /** How a trigger request ends. */
  datatype TriggerReply =
    | Forbidden
    | MethodNotAllowed
    | BadRequest
    | RegisterFailed(error: Assets.RegisterError)
    | Shown(filePath: string, assetId: string)

  function StatusCode(r: TriggerReply): int {
    match r
    case Forbidden => 403
    case MethodNotAllowed => 405
    case BadRequest => 400
    case RegisterFailed(_) => 400
    case Shown(_, _) => 200
  }

  /** The last index of `c` in `s`. */
  function LastIndexOf(s: string, c: char): (r: Option<nat>)
    ensures r.Some? ==> r.value < |s| && s[r.value] == c && c !in s[r.value + 1..]
    ensures r.None? ==> c !in s
  {
    if s == [] then None
    else if s[|s| - 1] == c then Some(|s| - 1)
    else
      var r := LastIndexOf(s[..|s| - 1], c);
      assert s == s[..|s| - 1] + [s[|s| - 1]];
      r
  }

  /** The first index of `c` in `s`. */
  function IndexOfChar(s: string, c: char): (r: Option<nat>)
    ensures r.Some? ==> r.value < |s| && s[r.value] == c && c !in s[..r.value]
    ensures r.None? ==> c !in s
  {
    if s == [] then None
    else if s[0] == c then Some(0)
    else match IndexOfChar(s[1..], c)
      case None => None
      case Some(i) =>
        assert s[..i + 1] == [s[0]] + s[1..][..i];
        Some(i + 1)
  }

  /** `net.SplitHostPort`'s host part, or None when the address does not
      split: the port follows the last colon; a bracketed host ends just
      before it; an unbracketed host holds no colon; no stray brackets. */
  function SplitHost(hostport: string): Option<string> {
    match LastIndexOf(hostport, ':')
    case None => None
    case Some(i) =>
      if hostport[0] == '[' then
        match IndexOfChar(hostport, ']')
        case None => None
        case Some(end) =>
          if end + 1 != i then None
          else if '[' in hostport[1..] || ']' in hostport[end + 1..] then None
          else Some(hostport[1..end])
      else
        var host := hostport[..i];
        if ':' in host || '[' in hostport || ']' in hostport then None
        else Some(host)
  }

  predicate IsLoopbackHost(h: string) {
    h == "127.0.0.1" || h == "::1" || h == "localhost"
  }

  /** `loopbackOnly`: the request goes on only when its remote address
      splits and names a loopback host. */
  predicate LoopbackAdmits(remoteAddr: string) {
    SplitHost(remoteAddr).Some? && IsLoopbackHost(SplitHost(remoteAddr).value)
  }

  /** A plain `host:port` address is admitted exactly when the host is a
      loopback name. */
  lemma PlainAddressAdmission(host: string, port: string)
    requires ':' !in host && '[' !in host && ']' !in host
    requires ':' !in port && '[' !in port && ']' !in port
    requires host == [] || host[0] != '['
    ensures SplitHost(host + ":" + port) == Some(host)
    ensures LoopbackAdmits(host + ":" + port) <==> IsLoopbackHost(host)
  {
    var a := host + ":" + port;
    assert a[|host|] == ':';
    assert a[|host| + 1..] == port;
    assert a[..|host|] == host;
    assert LastIndexOf(a, ':') == Some(|host|);
    assert a[0] != '[' by {
      if host == [] { assert a[0] == ':'; } else { assert a[0] == host[0]; }
    }
    assert '[' !in a && ']' !in a by {
      assert forall k :: 0 <= k < |a| ==> a[k] == ':' || a[k] in host || a[k] in port by {
        forall k | 0 <= k < |a|
          ensures a[k] == ':' || a[k] in host || a[k] in port
        {
          if k < |host| { assert a[k] == host[k]; }
          else if k > |host| { assert a[k] == port[k - |host| - 1]; }
        }
      }
    }
  }

  /** The IPv6 loopback in brackets is admitted, whatever the port. */
  lemma BracketedLoopbackAdmitted(port: string)
    requires ':' !in port && '[' !in port && ']' !in port
    ensures LoopbackAdmits("[::1]:" + port)
  {
    var a := "[::1]:" + port;
    assert a[..6] == "[::1]:";
    assert a[6..] == port;
    assert LastIndexOf(a, ':') == Some(5) by {
      assert a[5] == ':';
      assert a[6..] == port;
    }
    assert IndexOfChar(a, ']') == Some(4) by {
      assert a[4] == ']';
      assert a[..4] == "[::1";
    }
    assert a[1..] == "::1]:" + port;
    assert '[' !in a[1..] by {
      assert forall k :: 0 <= k < |a| - 1 ==> a[1..][k] != '[' by {
        forall k | 0 <= k < |a| - 1
          ensures a[1..][k] != '['
        {
          if k >= 5 { assert a[1..][k] == port[k - 5]; }
        }
      }
    }
    assert a[5..] == ":" + port;
    assert ']' !in a[5..];
    assert a[1..4] == "::1";
  }

  /** An address without a port never gets through. */
  lemma NoPortRefused(addr: string)
    requires ':' !in addr
    ensures !LoopbackAdmits(addr)
  {
  }

  /** `filepath.Ext`: the suffix from the last dot of the final element,
      or "" when that element has no dot. */
  function Ext(path: string): (e: string)
    ensures |e| <= |path| && e == path[|path| - |e|..]
    ensures e != [] ==> e[0] == '.' && '/' !in e && '.' !in e[1..]
  {
    if path == [] || path[|path| - 1] == '/' then ""
    else if path[|path| - 1] == '.' then "."
    else
      var init := path[..|path| - 1];
      var e := Ext(init);
      if e == [] then ""
      else
        assert init[|init| - |e|..] + [path[|path| - 1]] == path[|path| - |e| - 1..];
        e + [path[|path| - 1]]
  }

  /** The annotation file of a document: its extension replaced by ".kdl",
      or ".kdl" appended when it has none. */
  function KdlPath(filePath: string): (r: string)
    ensures r == filePath[..|filePath| - |Ext(filePath)|] + ".kdl"
  {
    var ext := Ext(filePath);
    filePath[..|filePath| - |ext|] + ".kdl"
  }

  /** A document named `<stem>.<ext>` (an extension without dots or
      slashes) annotates into `<stem>.kdl`; a final element without a dot
      gets ".kdl" appended. */
  lemma {:induction false} KdlPathReplacesExtension(stem: string, ext: string)
    requires '.' !in ext && '/' !in ext
    ensures KdlPath(stem + "." + ext) == stem + ".kdl"
    decreases |ext|
  {
    ExtOfDotted(stem, ext);
    var p := stem + "." + ext;
    assert p[..|p| - |ext| - 1] == stem;
  }

  lemma {:induction false} ExtOfDotted(stem: string, ext: string)
    requires '.' !in ext && '/' !in ext
    ensures Ext(stem + "." + ext) == "." + ext
    decreases |ext|
  {
    var p := stem + "." + ext;
    if ext == [] {
      assert p[|p| - 1] == '.';
    } else {
      var init := ext[..|ext| - 1];
      var last := ext[|ext| - 1];
      assert last in ext;
      assert p[|p| - 1] == last;
      assert p[..|p| - 1] == stem + "." + init;
      ExtOfDotted(stem, init);
      assert "." + init + [last] == "." + ext;
    }
  }

  lemma {:induction false} NoDotNoExt(path: string)
    requires '.' !in path
    ensures Ext(path) == ""
    ensures KdlPath(path) == path + ".kdl"
    decreases |path|
  {
    if path != [] && path[|path| - 1] != '/' {
      assert path[..|path| - 1] <= path;
      NoDotNoExt(path[..|path| - 1]);
    }
  }

  /** The documented example: "/foo/bar.md" annotates into "/foo/bar.kdl". */
  lemma MarkdownExample()
    ensures KdlPath("/foo/bar.md") == "/foo/bar.kdl"
  {
    KdlPathReplacesExtension("/foo/bar", "md");
    assert "/foo/bar" + "." + "md" == "/foo/bar.md";
    assert "/foo/bar" + ".kdl" == "/foo/bar.kdl";
  }

  /** The file an annotation refers to: the original path of the asset it
      names, or the value itself when no asset has that ID. */
  function AnnotatedFile(assetPaths: map<string, string>, reference: string): (f: string)
    ensures reference in assetPaths ==> f == assetPaths[reference]
    ensures reference !in assetPaths ==> f == reference
  {
    if reference in assetPaths then assetPaths[reference] else reference
  }

  /** The stored form of an annotation: no user is recorded. */
  function ToStored(d: AnnotationData): (a: Kdl.Annotation)
    ensures a.id == d.id && a.body == d.body && a.targetText == d.targetText
    ensures a.contextHash == d.contextHash && a.timestamp == d.timestamp && a.user == ""
  {
    Kdl.Annotation(d.id, "", d.timestamp, d.contextHash, d.targetText, d.body)
  }

  /** What handling one envelope does to the files: only an annotation
      writes, into the `.kdl` file beside the document it refers to. */
  function MessageEffect(files: map<string, Kdl.FileState>, readOnly: set<string>, assetPaths: map<string, string>,
                         env: Envelope): map<string, Kdl.FileState>
  {
    match env
    case Annotation(action) =>
      Kdl.AppendSpec(files, readOnly, KdlPath(AnnotatedFile(assetPaths, action.filePath)), ToStored(action.data))
    case _ => files
  }

  /** The effect of the frames one connection sent, in order; frames that
      do not decode are skipped. */
  function SessionEffect(files: map<string, Kdl.FileState>, readOnly: set<string>, assetPaths: map<string, string>,
                         frames: seq<Option<Envelope>>): map<string, Kdl.FileState>
  {
    if frames == [] then files
    else
      var before := SessionEffect(files, readOnly, assetPaths, frames[..|frames| - 1]);
      match frames[|frames| - 1]
      case None => before
      case Some(env) => MessageEffect(before, readOnly, assetPaths, env)
  }

  /** Pings, views and empty envelopes leave every file alone; undecodable
      frames too. */
  lemma {:induction false} OnlyAnnotationsWrite(files: map<string, Kdl.FileState>, readOnly: set<string>,
                                                assetPaths: map<string, string>, frames: seq<Option<Envelope>>)
    requires forall k :: 0 <= k < |frames| ==> frames[k].None? || !frames[k].value.Annotation?
    ensures SessionEffect(files, readOnly, assetPaths, frames) == files
    decreases |frames|
  {
    if frames != [] {
      OnlyAnnotationsWrite(files, readOnly, assetPaths, frames[..|frames| - 1]);
    }
  }

  /** An annotation on a shown asset lands beside the original document:
      for a file shown from "/foo/bar.md", in "/foo/bar.kdl". */
  lemma AnnotationOnShownAsset(assetPaths: map<string, string>, id: string, d: AnnotationData,
                               files: map<string, Kdl.FileState>, readOnly: set<string>)
    ensures MessageEffect(files, readOnly, assetPaths[id := "/foo/bar.md"], Annotation(AnnotationAction(id, d)))
         == Kdl.AppendSpec(files, readOnly, "/foo/bar.kdl", ToStored(d))
  {
    MarkdownExample();
  }

  class Server {
    const port: int
    var clients: set<nat>
    var assetPaths: map<string, string>
    const assetManager: Assets.Manager
    const files: Kdl.FileSystem
    /** Every frame written to a connection, in order. */
    var sent: seq<(nat, Envelope)>
    /** Every broadcast: the clients it went to and the envelope. */
    var broadcasts: seq<(set<nat>, Envelope)>

    constructor (port: int, files: Kdl.FileSystem)
      ensures this.port == port && this.files == files
      ensures clients == {} && assetPaths == map[] && sent == [] && broadcasts == []
      ensures fresh(assetManager) && assetManager.assets == map[]
    {
      this.port := port;
      this.files := files;
      clients := {};
      assetPaths := map[];
      sent := [];
      broadcasts := [];
      assetManager := new Assets.Manager();
    }

    method RegisterClient(conn: nat)
      modifies this`clients
      ensures clients == old(clients) + {conn}
    {
      clients := clients + {conn};
    }

    method UnregisterClient(conn: nat)
      modifies this`clients
      ensures clients == old(clients) - {conn}
    {
      clients := clients - {conn};
    }

    /** Greets a connection with a ping stamped `now` (Unix seconds). */
    method SendPing(conn: nat, now: int)
      modifies this`sent
      ensures sent == old(sent) + [(conn, Ping(now))]
    {
      sent := sent + [(conn, Ping(now))];
    }

    method Broadcast(env: Envelope)
      modifies this`broadcasts
      ensures broadcasts == old(broadcasts) + [(clients, env)]
    {
      broadcasts := broadcasts + [(clients, env)];
    }

    /** What `genericTrigger` does: checks the method, the body and the
        file, in that order, answering with the first failure and changing
        nothing; a registered file is recorded under a fresh ID that lives
        `AssetLifetime` seconds, and every connected client is told to show
        it. */
    twostate predicate TriggerEffect(httpMethod: string, body: Option<ShowRequest>, fileType: FileType,
                                     abs: Option<string>, statOk: bool, random: seq<Assets.Byte>, now: int,
                                     reply: TriggerReply)
      requires |random| == 8
      reads this, assetManager
    {
      && (httpMethod != "POST" ==> reply == MethodNotAllowed)
      && (httpMethod == "POST" && body.None? ==> reply == BadRequest)
      && (httpMethod == "POST" && body.Some? && abs.None? ==> reply == RegisterFailed(Assets.AbsFailed))
      && (httpMethod == "POST" && body.Some? && abs.Some? && !statOk ==> reply == RegisterFailed(Assets.StatFailed))
      && (!reply.Shown? ==>
            assetPaths == old(assetPaths) && broadcasts == old(broadcasts)
            && assetManager.assets == old(assetManager.assets))
      && (reply.Shown? <==> httpMethod == "POST" && body.Some? && abs.Some? && statOk)
      && (reply.Shown? ==>
            var id := Assets.GenerateId(random);
            && reply == Shown(body.value.filePath, id)
            && assetManager.assets == old(assetManager.assets)[id := Assets.AssetEntry(abs.value, now + Assets.AssetLifetime)]
            && assetPaths == old(assetPaths)[id := body.value.filePath]
            && broadcasts == old(broadcasts)
                 + [(clients, OpenView(OpenViewRequest(id, "/assets/" + id, fileType, body.value.title)))])
    }

    /** `handleTriggerShow` and `handleTriggerMarkdown` behind
        `loopbackOnly`: `body` is the decoded request (None when it does not
        decode); `abs`, `statOk`, `random` and `now` go to the asset
        manager's `Register`. */
    method Trigger(remoteAddr: string, httpMethod: string, body: Option<ShowRequest>, fileType: FileType,
                   abs: Option<string>, statOk: bool, random: seq<Assets.Byte>, now: int)
      returns (reply: TriggerReply)
      requires |random| == 8
      modifies this`assetPaths, this`broadcasts, assetManager
      ensures !LoopbackAdmits(remoteAddr) ==>
        reply == Forbidden && assetPaths == old(assetPaths) && broadcasts == old(broadcasts)
        && assetManager.assets == old(assetManager.assets)
      ensures LoopbackAdmits(remoteAddr) ==> TriggerEffect(httpMethod, body, fileType, abs, statOk, random, now, reply)
    {
      if !LoopbackAdmits(remoteAddr) {
        return Forbidden;
      }
      reply := GenericTrigger(httpMethod, body, fileType, abs, statOk, random, now);
    }

    /** `genericTrigger`: checks the method, the body and the file, in that
        order; only a registered file is recorded and announced. */
    method GenericTrigger(httpMethod: string, body: Option<ShowRequest>, fileType: FileType,
                          abs: Option<string>, statOk: bool, random: seq<Assets.Byte>, now: int)
      returns (reply: TriggerReply)
      requires |random| == 8
      modifies this`assetPaths, this`broadcasts, assetManager
      ensures TriggerEffect(httpMethod, body, fileType, abs, statOk, random, now, reply)
    {
      if httpMethod != "POST" {
        return MethodNotAllowed;
      }
      if body.None? {
        return BadRequest;
      }
      var req := body.value;
      var assetId, err := assetManager.Register(req.filePath, abs, statOk, random, now);
      if err.Some? {
        return RegisterFailed(err.value);
      }
      assetPaths := assetPaths[assetId := req.filePath];
      var assetUrl := "/assets/" + assetId;
      Broadcast(OpenView(OpenViewRequest(assetId, assetUrl, fileType, req.title)));
      reply := Shown(req.filePath, assetId);
    }

    /** `handleMessage`: an annotation is filed; anything else is only
        logged. */
    method HandleMessage(conn: nat, env: Envelope)
      modifies files
      ensures files.files == MessageEffect(old(files.files), files.readOnly, assetPaths, env)
    {
      if env.Annotation? {
        HandleAnnotation(env.action);
      }
    }

    /** `handleAnnotation`: resolves the referenced document and appends the
        annotation to its `.kdl` file; a failed append is only logged. */
    method HandleAnnotation(action: AnnotationAction)
      modifies files
      ensures files.files == MessageEffect(old(files.files), files.readOnly, assetPaths, Annotation(action))
    {
      var filePath := AnnotatedFile(assetPaths, action.filePath);
      var kdlPath := KdlPath(filePath);
      var ann := ToStored(action.data);
      var _ := files.Append(kdlPath, ann);
    }

    /** `handleWebSocket` for one connection: `upgraded` is whether the
        upgrade succeeded, `frames` what it read before its first read
        error (None for a frame that does not decode), `now` the Unix time
        in seconds. */
    method HandleWebSocket(conn: nat, upgraded: bool, frames: seq<Option<Envelope>>, now: int)
      modifies this`clients, this`sent, files
      ensures !upgraded ==> clients == old(clients) && sent == old(sent) && files.files == old(files.files)
      ensures upgraded ==>
        && clients == old(clients) - {conn}
        && sent == old(sent) + [(conn, Ping(now))]
        && files.files == SessionEffect(old(files.files), files.readOnly, assetPaths, frames)
    {
      if !upgraded {
        return;
      }
      RegisterClient(conn);
      SendPing(conn, now);
      var i := 0;
      while i < |frames|
        invariant 0 <= i <= |frames|
        invariant clients == old(clients) + {conn}
        invariant sent == old(sent) + [(conn, Ping(now))]
        invariant files.files == SessionEffect(old(files.files), files.readOnly, assetPaths, frames[..i])
      {
        assert frames[..i + 1][..i] == frames[..i];
        if frames[i].Some? {
          HandleMessage(conn, frames[i].value);
        }
        i := i + 1;
      }
      assert frames[..|frames|] == frames;
      UnregisterClient(conn);
    }
  }
}
