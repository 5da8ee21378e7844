/** The remote Zellij lifecycle (`ZellijManager`): install and version checks,
    the auth-token parser, the bounded start-and-poll procedure, stopping,
    and the session list.

    Every operation issues its commands through the SSH channel. Each is
    specified by a `...Spec` function of the oracle, the command log before
    it and whether a client is held; the function returns the log after it
    and the result (a `Run`). The methods of the class are proved to leave
    the channel's log as that function says and to return its result. */
module Zellij {
  import opened Wrappers
  import opened Text
  import opened SshConnections

  const DefaultZellijPort: int := 8082
  const MaxStartupRetries: nat := 5

  datatype ZellijError =
    | NotInstalled(message: string)
    | StartupFailed(message: string)
    /** An exception from the channel that the operation lets through. */
    | Failed(cause: Failure)

  const NotInstalledMessage: string :=
    "Zellij is not installed on the remote host. Install with: curl -L zellij.dev/install.sh | bash"

  const VersionCommand: string := "zellij --version"
  const PgrepCommand: string := "pgrep -f 'zellij web' | head -1"
  const TailscaleCommand: string := "tailscale ip -4 2>/dev/null"
  const CreateTokenCommand: string := "zellij web --create-token"
  const StartCommand: string := "nohup zellij web > /tmp/zellij-web.log 2>&1 &"
  const TailCommand: string := "tail -20 /tmp/zellij-web.log"
  const PkillCommand: string := "pkill -f 'zellij web'"
  const ListCommand: string := "zellij list-sessions 2>/dev/null || echo ''"

  function KillCommand(name: string): string {
    "zellij delete-session " + name
  }

  function LogsCommand(lines: int): string {
    "tail -" + IntToString(lines) + " /tmp/zellij-web.log 2>/dev/null || echo 'No logs available'"
  }

  // ---------------------------------------------------------------------------
  // Removing ANSI colour sequences: every match of `\u001B\[[;\d]*m`, scanning
  // left to right without rescanning what is left behind.

  const Esc: char := '\U{1B}'

  predicate IsSgrParam(c: char) {
    IsDigit(c) || c == ';'
  }

  /** `t` is exactly one SGR sequence: ESC, '[', parameter characters, 'm'. */
  predicate IsSgr(t: string) {
    && |t| >= 3 && t[0] == Esc && t[1] == '[' && t[|t| - 1] == 'm'
    && forall k :: 2 <= k < |t| - 1 ==> IsSgrParam(t[k])
  }

  /** The length of the run of characters satisfying `p` that starts at `i`. */
  function RunLength(s: string, i: nat, p: char -> bool): (n: nat)
    requires i <= |s|
    ensures i + n <= |s|
    decreases |s| - i
  {
    if i < |s| && p(s[i]) then 1 + RunLength(s, i + 1, p) else 0
  }

  /** The run is made of `p` characters and is maximal. */
  lemma {:induction false} RunLengthSpec(s: string, i: nat, p: char -> bool)
    requires i <= |s|
    ensures forall k :: i <= k < i + RunLength(s, i, p) ==> p(s[k])
    ensures i + RunLength(s, i, p) == |s| || !p(s[i + RunLength(s, i, p)])
    decreases |s| - i
  {
    if i < |s| && p(s[i]) {
      RunLengthSpec(s, i + 1, p);
    }
  }

  /** A run of `p` characters from `i` to `j` that nothing extends is the
      run `RunLength` measures. */
  lemma {:induction false} RunStops(s: string, i: nat, j: nat, p: char -> bool)
    requires i <= j <= |s|
    requires forall k :: i <= k < j ==> p(s[k])
    requires j == |s| || !p(s[j])
    ensures RunLength(s, i, p) == j - i
    decreases j - i
  {
    if i < j {
      RunStops(s, i + 1, j, p);
    }
  }

  /** The length of the SGR sequence `s` starts with, if it starts with one:
      ESC, '[', the longest run of parameter characters, then 'm'. */
  function SgrPrefix(s: string): (r: Option<nat>)
    ensures r.Some? ==> 3 <= r.value <= |s| && IsSgr(s[..r.value])
  {
    if 2 <= |s| && s[0] == Esc && s[1] == '[' then
      var k := 2 + RunLength(s, 2, IsSgrParam);
      if k < |s| && s[k] == 'm' then
        RunLengthSpec(s, 2, IsSgrParam);
        assert forall j :: 2 <= j < k ==> s[..k + 1][j] == s[j];
        Some(k + 1)
      else None
    else None
  }

  /** `SgrPrefix` finds every SGR sequence a string starts with. */
  lemma SgrPrefixComplete(s: string, n: nat)
    requires n <= |s| && IsSgr(s[..n])
    ensures SgrPrefix(s) == Some(n)
  {
    var t := s[..n];
    assert forall k :: 2 <= k < n - 1 ==> t[k] == s[k];
    assert t[0] == s[0] && t[1] == s[1] && t[n - 1] == s[n - 1];
    RunStops(s, 2, n - 1, IsSgrParam);
  }

  /** `replace(Regex("\u001B\\[[;\\d]*m"), "")`. */
  function StripAnsi(s: string): (r: string)
    ensures |r| <= |s|
    decreases |s|
  {
    if s == [] then []
    else match SgrPrefix(s)
      case Some(n) => StripAnsi(s[n..])
      case None => [s[0]] + StripAnsi(s[1..])
  }

  /** Text with no ESC character is left alone. */
  lemma {:induction false} StripAnsiNoEsc(s: string)
    requires Esc !in s
    ensures StripAnsi(s) == s
    decreases |s|
  {
    if s != [] {
      assert s[0] != Esc;
      assert forall k :: 0 <= k < |s| - 1 ==> s[1..][k] == s[k + 1];
      StripAnsiNoEsc(s[1..]);
      assert s == [s[0]] + s[1..];
    }
  }

  /** A leading colour sequence is removed whole. */
  lemma StripAnsiDropsSgr(t: string, u: string)
    requires IsSgr(t)
    ensures StripAnsi(t + u) == StripAnsi(u)
  {
    var s := t + u;
    assert s[..|t|] == t;
    SgrPrefixComplete(s, |t|);
    assert s[|t|..] == u;
  }

  /** A leading character that does not start a colour sequence is kept. */
  lemma StripAnsiKeepsPlainChar(c: char, u: string)
    requires c != Esc
    ensures StripAnsi([c] + u) == [c] + StripAnsi(u)
  {
    assert ([c] + u)[1..] == u;
  }

  // ---------------------------------------------------------------------------
  // The labelled token `token_\d+:\s*([a-f0-9\-]+)`. No character can be both
  // the end of a run and the next element of the pattern (a digit is not ':',
  // a regex space is not a token character), so greedy matching never
  // backtracks: a match at a position is unique and its group is the maximal
  // run of token characters.

  /** Java's `\s`: space, tab, line feed, vertical tab, form feed, return. */
  predicate IsRegexSpace(c: char) {
    c == ' ' || c == '\t' || c == '\n' || c == '\U{B}' || c == '\U{C}' || c == '\r'
  }

  predicate IsTokenChar(c: char) {
    ('a' <= c <= 'f') || IsDigit(c) || c == '-'
  }

  const TokenLabel: string := "token_"

  /** The group captured by a labelled-token match starting at `i`, if one does. */
  function LabelledTokenAt(s: string, i: nat): (r: Option<string>)
    requires i <= |s|
    ensures r.Some? ==> OccursAt(s, TokenLabel, i)
    ensures r.Some? ==> r.value != [] && forall k :: 0 <= k < |r.value| ==> IsTokenChar(r.value[k])
  {
    if !OccursAt(s, TokenLabel, i) then None
    else
      var d := i + |TokenLabel|;
      var colon := d + RunLength(s, d, IsDigit);
      if colon == d || colon == |s| || s[colon] != ':' then None
      else
        var start := colon + 1 + RunLength(s, colon + 1, IsRegexSpace);
        var len := RunLength(s, start, IsTokenChar);
        if len == 0 then None
        else
          RunLengthSpec(s, start, IsTokenChar);
          Some(s[start..start + len])
  }

  /** The first position at or after `i` where a labelled token matches. */
  function LabelledTokenIndex(s: string, i: nat): (r: Option<nat>)
    requires i <= |s|
    ensures r.Some? ==> i <= r.value <= |s| && LabelledTokenAt(s, r.value).Some?
    ensures r.Some? ==> forall j :: i <= j < r.value ==> LabelledTokenAt(s, j).None?
    ensures r.None? ==> forall j :: i <= j <= |s| ==> LabelledTokenAt(s, j).None?
    decreases |s| - i
  {
    if LabelledTokenAt(s, i).Some? then Some(i)
    else if i == |s| then None
    else LabelledTokenIndex(s, i + 1)
  }

  // ---------------------------------------------------------------------------
  // The unlabelled fallback `[a-f0-9]{8}-[a-f0-9]{4}-[a-f0-9]{4}-[a-f0-9]{4}-[a-f0-9]{12}`.

  predicate IsLowerHex(c: char) {
    IsDigit(c) || ('a' <= c <= 'f')
  }

  predicate IsUuidHyphenPosition(k: int) {
    k == 8 || k == 13 || k == 18 || k == 23
  }

  /** A lowercase 8-4-4-4-12 hexadecimal UUID. */
  predicate IsUuid(t: string) {
    && |t| == 36
    && forall k :: 0 <= k < 36 ==>
         if IsUuidHyphenPosition(k) then t[k] == '-' else IsLowerHex(t[k])
  }

  /** A UUID occurs in `s` at `j`. */
  predicate UuidAt(s: string, j: nat) {
    j + 36 <= |s| && IsUuid(s[j..j + 36])
  }

  /** The first position at or after `i` where a UUID occurs. */
  function UuidIndex(s: string, i: nat): (r: Option<nat>)
    requires i <= |s|
    ensures r.Some? ==> i <= r.value && UuidAt(s, r.value)
    ensures r.Some? ==> forall j :: i <= j < r.value ==> !UuidAt(s, j)
    ensures r.None? ==> forall j :: i <= j ==> !UuidAt(s, j)
    decreases |s| - i
  {
    if i + 36 > |s| then None
    else if UuidAt(s, i) then Some(i)
    else UuidIndex(s, i + 1)
  }

  /** The token in cleaned output: the first labelled token, else the first
      UUID, else the whole trimmed text when it is longer than 20 characters. */
  function ParseToken(clean: string): (r: Option<string>)
    ensures r.Some? ==> r.value != [] && !IsWhitespace(r.value[0])
                        && !IsWhitespace(r.value[|r.value| - 1])
    ensures r.None? ==> |Trim(clean)| <= 20
    ensures LabelledTokenIndex(clean, 0).Some? ==>
      r == LabelledTokenAt(clean, LabelledTokenIndex(clean, 0).value)
    ensures LabelledTokenIndex(clean, 0).None? && UuidIndex(clean, 0).Some? ==>
      r.Some? && IsUuid(r.value) && r.value == clean[UuidIndex(clean, 0).value..UuidIndex(clean, 0).value + 36]
    ensures LabelledTokenIndex(clean, 0).None? && UuidIndex(clean, 0).None? ==>
      r == (if |Trim(clean)| > 20 then Some(Trim(clean)) else None)
  {
    var labelled := LabelledTokenIndex(clean, 0);
    if labelled.Some? then
      var found := LabelledTokenAt(clean, labelled.value);
      var tok := found.value;
      assert IsTokenChar(tok[0]) && IsTokenChar(tok[|tok| - 1]);
      found
    else
      var uuid := UuidIndex(clean, 0);
      if uuid.Some? then
        var u := clean[uuid.value..uuid.value + 36];
        assert IsUuid(u);
        assert IsLowerHex(u[0]) && IsLowerHex(u[35]);
        Some(u)
      else
        var t := Trim(clean);
        if |t| > 20 then Some(t) else None
  }

  /** `getOrCreateAuthToken` on the result of `zellij web --create-token`. */
  function AuthTokenFrom(r: Result<CommandResult, Failure>): (t: Result<string, ZellijError>)
    ensures t.Err? ==> t.error.StartupFailed?
    ensures t.Ok? ==> r.Ok? && r.value.success && t.value != []
    ensures r.Err? ==> t == Err(StartupFailed("Error creating auth token: " + MessageText(r.error)))
    ensures r.Ok? && !r.value.success ==> t == Err(StartupFailed("Failed to create auth token: " + r.value.stderr))
    ensures r.Ok? && r.value.success ==>
      (t.Ok? <==> ParseToken(StripAnsi(r.value.stdout)).Some?)
    ensures t.Ok? ==> Some(t.value) == ParseToken(StripAnsi(r.value.stdout))
    ensures r.Ok? && r.value.success && t.Err? ==>
      t.error.message == "Failed to parse auth token from output: " + StripAnsi(r.value.stdout)
  {
    match r
    case Err(f) => Err(StartupFailed("Error creating auth token: " + MessageText(f)))
    case Ok(res) =>
      if !res.success then Err(StartupFailed("Failed to create auth token: " + res.stderr))
      else
        var clean := StripAnsi(res.stdout);
        match ParseToken(clean)
        case Some(tok) => Ok(tok)
        case None => Err(StartupFailed("Failed to parse auth token from output: " + clean))
  }

  /** `p` does not occur at `j` when one of its characters differs there. */
  lemma NotOccursAt(s: string, p: string, j: nat, m: nat)
    requires m < |p|
    requires j + m < |s| ==> s[j + m] != p[m]
    ensures !OccursAt(s, p, j)
  {
    if j + |p| <= |s| {
      assert s[j..j + |p|][m] == s[j + m];
    }
  }

  /** Positions that match nothing are skipped over by the search. */
  lemma {:induction false} LabelledTokenIndexSkips(s: string, i: nat, j: nat)
    requires i <= j <= |s|
    requires forall k :: i <= k < j ==> LabelledTokenAt(s, k).None?
    ensures LabelledTokenIndex(s, i) == LabelledTokenIndex(s, j)
    decreases j - i
  {
    if i < j {
      LabelledTokenIndexSkips(s, i + 1, j);
    }
  }

  /** No '_' occurs in `s` before index `n`. */
  predicate NoUnderscoreBefore(s: string, n: nat) {
    forall k :: 0 <= k < |s| && k < n ==> s[k] != '_'
  }

  /** No match can start before `j0` when no '_' occurs before `j0 + 5`:
      the label's underscore would have to sit there. */
  lemma NoLabelBefore(s: string, j0: nat)
    requires j0 <= |s|
    requires NoUnderscoreBefore(s, j0 + 5)
    ensures LabelledTokenIndex(s, 0) == LabelledTokenIndex(s, j0)
  {
    forall j | 0 <= j < j0
      ensures LabelledTokenAt(s, j).None?
    {
      NotOccursAt(s, TokenLabel, j, 5);
    }
    LabelledTokenIndexSkips(s, 0, j0);
  }

  /** A match at `at`, by positions: the label, digits up to the colon,
      regex spaces up to `start`, then a maximal run of token characters up
      to `end`, which is the captured group. */
  lemma LabelledTokenAtPositions(s: string, at: nat, colon: nat, start: nat, end: nat)
    requires OccursAt(s, TokenLabel, at)
    requires at + 6 < colon < start < end <= |s|
    requires forall k :: at + 6 <= k < colon ==> IsDigit(s[k])
    requires s[colon] == ':'
    requires forall k :: colon < k < start ==> IsRegexSpace(s[k])
    requires forall k :: start <= k < end ==> IsTokenChar(s[k])
    requires end == |s| || !IsTokenChar(s[end])
    ensures LabelledTokenAt(s, at) == Some(s[start..end])
  {
    RunStops(s, at + 6, colon, IsDigit);
    RunStops(s, colon + 1, start, IsRegexSpace);
    RunStops(s, start, end, IsTokenChar);
  }

  /** A preamble with no '_' followed by the label has no '_' before the
      label's own. */
  lemma UnderscoreOnlyInLabel(pre: string, after: string)
    requires '_' !in pre
    ensures NoUnderscoreBefore(pre + TokenLabel + after, |pre| + 5)
  {
    var labelled := pre + TokenLabel;
    var s := labelled + after;
    forall k | 0 <= k < |s| && k < |pre| + 5
      ensures s[k] != '_'
    {
      assert s[k] == labelled[k];
      if k < |pre| {
        assert labelled[k] == pre[k];
      } else {
        assert labelled[k] == TokenLabel[k - |pre|];
      }
    }
  }

  /** After a preamble with no '_', no match starts inside the preamble. */
  lemma PreambleHasNoMatch(pre: string, after: string)
    requires '_' !in pre
    ensures var s := pre + TokenLabel + after;
            LabelledTokenIndex(s, 0) == LabelledTokenIndex(s, |pre|)
  {
    UnderscoreOnlyInLabel(pre, after);
    NoLabelBefore(pre + TokenLabel + after, |pre|);
  }

  /** The label `token_<digits>:`, regex spaces, a token, and text that
      cannot continue the token: a match that captures exactly the token. */
  lemma LabelCapturesToken(pre: string, digits: string, spaces: string, tok: string, rest: string)
    requires digits != [] && AllDigits(digits)
    requires forall k :: 0 <= k < |spaces| ==> IsRegexSpace(spaces[k])
    requires tok != [] && forall k :: 0 <= k < |tok| ==> IsTokenChar(tok[k])
    requires rest == [] || !IsTokenChar(rest[0])
    ensures var s := pre + TokenLabel + digits + ":" + spaces + tok + rest;
            LabelledTokenAt(s, |pre|) == Some(tok)
  {
    var labelled := pre + TokenLabel;
    var counted := labelled + digits;
    var spaced := counted + ":" + spaces;
    var tokened := spaced + tok;
    var s := tokened + rest;
    var colon := |counted|;
    assert s[..|labelled|] == labelled;
    forall k | |labelled| <= k < colon
      ensures IsDigit(s[k])
    {
      assert s[k] == counted[k] == digits[k - |labelled|];
    }
    assert s[colon] == ':' by {
      assert s[colon] == spaced[colon];
    }
    forall k | colon < k < |spaced|
      ensures IsRegexSpace(s[k])
    {
      assert s[k] == spaced[k] == spaces[k - colon - 1];
    }
    forall k | |spaced| <= k < |tokened|
      ensures IsTokenChar(s[k])
    {
      assert s[k] == tokened[k] == tok[k - |spaced|];
    }
    if rest != [] {
      assert s[|tokened|] == rest[0];
    }
    LabelledTokenAtPositions(s, |pre|, colon, |spaced|, |tokened|);
    assert s[|spaced|..|tokened|] == tok;
  }

  /** A preamble with no '_', then a labelled token: the first match is at
      the label and captures exactly the token. */
  lemma LabelledTokenAfterPreamble(pre: string, digits: string, spaces: string, tok: string, rest: string)
    requires '_' !in pre
    requires digits != [] && AllDigits(digits)
    requires forall k :: 0 <= k < |spaces| ==> IsRegexSpace(spaces[k])
    requires tok != [] && forall k :: 0 <= k < |tok| ==> IsTokenChar(tok[k])
    requires rest == [] || !IsTokenChar(rest[0])
    ensures var s := pre + TokenLabel + digits + ":" + spaces + tok + rest;
            LabelledTokenIndex(s, 0) == Some(|pre|) && LabelledTokenAt(s, |pre|) == Some(tok)
  {
    var after := digits + ":" + spaces + tok + rest;
    var s := pre + TokenLabel + digits + ":" + spaces + tok + rest;
    assert s == pre + TokenLabel + after;
    PreambleHasNoMatch(pre, after);
    LabelCapturesToken(pre, digits, spaces, tok, rest);
  }

  /** Colour-free output with a labelled token yields the first one. */
  lemma TokenFromFirstLabel(out: string)
    requires Esc !in out
    requires LabelledTokenIndex(out, 0).Some?
    ensures AuthTokenFrom(ResultOf(Exited(0, out, "")))
         == Ok(LabelledTokenAt(out, LabelledTokenIndex(out, 0).value).value)
  {
    StripAnsiNoEsc(out);
  }

  /** Colour-free output made of a preamble with no '_', then a labelled
      token, yields exactly that token. */
  lemma LabelledTokenYielded(pre: string, digits: string, spaces: string, tok: string, rest: string)
    requires '_' !in pre && Esc !in pre && Esc !in rest
    requires digits != [] && AllDigits(digits)
    requires forall k :: 0 <= k < |spaces| ==> IsRegexSpace(spaces[k])
    requires tok != [] && forall k :: 0 <= k < |tok| ==> IsTokenChar(tok[k])
    requires rest == [] || !IsTokenChar(rest[0])
    ensures AuthTokenFrom(ResultOf(Exited(0, pre + TokenLabel + digits + ":" + spaces + tok + rest, "")))
         == Ok(tok)
  {
    var labelled := pre + TokenLabel;
    var counted := labelled + digits;
    var spaced := counted + ":" + spaces;
    var s := spaced + tok + rest;
    LabelledTokenAfterPreamble(pre, digits, spaces, tok, rest);
    assert Esc !in labelled;
    assert Esc !in digits && Esc !in counted;
    assert Esc !in spaces && Esc !in spaced;
    assert Esc !in tok && Esc !in s;
    TokenFromFirstLabel(s);
  }

  /** Colour-free output with no labelled token but a UUID yields the first
      UUID. */
  lemma TokenFromFirstUuid(out: string, err: string)
    requires Esc !in out
    requires LabelledTokenIndex(out, 0).None? && UuidIndex(out, 0).Some?
    ensures var j := UuidIndex(out, 0).value;
      AuthTokenFrom(ResultOf(Exited(0, out, err))) == Ok(out[j..j + 36]) && IsUuid(out[j..j + 36])
  {
    StripAnsiNoEsc(out);
  }

  /** Colour-free output with neither a labelled token nor a UUID yields its
      trimmed text when that is longer than 20 characters, and fails with
      the output in the message otherwise. */
  lemma TokenFromTrimmedOutput(out: string, err: string)
    requires Esc !in out
    requires LabelledTokenIndex(out, 0).None? && UuidIndex(out, 0).None?
    ensures |Trim(out)| > 20 ==> AuthTokenFrom(ResultOf(Exited(0, out, err))) == Ok(Trim(out))
    ensures |Trim(out)| <= 20 ==>
      AuthTokenFrom(ResultOf(Exited(0, out, err))) == Err(StartupFailed("Failed to parse auth token from output: " + out))
  {
    StripAnsiNoEsc(out);
  }

  /** The usual reply of `zellij web --create-token`: a banner line, a blank
      line, then the numbered token. */
  const ExampleBanner: string := "Created token successfully\n\n"
  const ExampleToken: string := "40cfd772-e052-43a0-8acf-e64b1b8825fb"
  const ExampleTokenOutput: string := ExampleBanner + TokenLabel + "1" + ":" + " " + ExampleToken

  /** The banner holds neither an underscore nor a colour sequence. */
  lemma ExampleBannerIsPlain()
    ensures '_' !in ExampleBanner && Esc !in ExampleBanner
  {
  }

  /** The token is made of token characters only. */
  lemma ExampleTokenIsTokenChars()
    ensures forall k :: 0 <= k < |ExampleToken| ==> IsTokenChar(ExampleToken[k])
  {
  }

  /** The labelled token is taken from the usual reply. */
  lemma ExampleTokenOutputYieldsToken()
    ensures AuthTokenFrom(ResultOf(Exited(0, ExampleTokenOutput, ""))) == Ok(ExampleToken)
  {
    assert ExampleTokenOutput + "" == ExampleTokenOutput;
    ExampleBannerIsPlain();
    ExampleTokenIsTokenChars();
    LabelledTokenYielded(ExampleBanner, "1", " ", ExampleToken, "");
  }

  /** A bare UUID, possibly followed by whitespace such as a line break,
      yields itself. */
  lemma BareUuidYieldsItself(u: string, tail: string)
    requires IsUuid(u) && IsBlank(tail)
    ensures AuthTokenFrom(ResultOf(Exited(0, u + tail, ""))) == Ok(u)
  {
    var s := u + tail;
    assert forall k :: 0 <= k < |s| ==> s[k] != Esc && s[k] != 't' by {
      forall k | 0 <= k < |s|
        ensures s[k] != Esc && s[k] != 't'
      {
        if k < 36 {
          assert s[k] == u[k];
        } else {
          assert s[k] == tail[k - 36];
        }
      }
    }
    StripAnsiNoEsc(s);
    assert LabelledTokenIndex(s, 0).None? by {
      forall j | 0 <= j <= |s|
        ensures LabelledTokenAt(s, j).None?
      {
        NotOccursAt(s, TokenLabel, j, 0);
      }
    }
    assert s[0..36] == u;
  }

  /** Empty output never yields a token. */
  lemma EmptyOutputFails(stderr: string)
    ensures AuthTokenFrom(ResultOf(Exited(0, "", stderr)))
         == Err(StartupFailed("Failed to parse auth token from output: "))
  {
    assert StripAnsi("") == "";
    assert !OccursAt("", TokenLabel, 0);
    assert LabelledTokenIndex("", 0).None?;
    assert UuidIndex("", 0).None?;
    assert Trim("") == "";
    assert ParseToken("").None?;
    var message := "Failed to parse auth token from output: ";
    assert message + "" == message;
  }

  /** A non-zero exit fails with the error stream in the message. */
  lemma FailedCreateCarriesStderr(status: int, stdout: string, stderr: string)
    requires status != 0
    ensures AuthTokenFrom(ResultOf(Exited(status, stdout, stderr)))
         == Err(StartupFailed("Failed to create auth token: " + stderr))
  {
  }

  // ---------------------------------------------------------------------------
  // Versions.

  /** `getZellijVersion` on the result of `zellij --version`: the trimmed text
      after the first "zellij" in the trimmed output. */
  function VersionFrom(r: Result<CommandResult, Failure>): (v: Option<string>)
    ensures v.Some? <==> r.Ok? && r.value.success
    ensures v.Some? ==> v.value == Trim(SubstringAfter(Trim(r.value.stdout), "zellij"))
    ensures v.Some? && v.value != [] ==>
      !IsWhitespace(v.value[0]) && !IsWhitespace(v.value[|v.value| - 1])
  {
    if r.Ok? && r.value.success then Some(Trim(SubstringAfter(Trim(r.value.stdout), "zellij")))
    else None
  }

  /** The web client exists from 0.43 on; anything unparsable is unsupported. */
  function IsVersionSupported(version: string): bool {
    var parts := Split(version, '.');
    if |parts| < 2 then false
    else match (ToIntOrNull(parts[0]), ToIntOrNull(parts[1]))
      case (Some(major), Some(minor)) =>
        major > 0 || (major == 0 && minor >= 43)
      case _ => false
  }

  lemma NoDotInIntToString(i: int)
    ensures '.' !in IntToString(i)
  {
    var d := NatToString(if i < 0 then -i else i);
    assert forall k :: 0 <= k < |d| ==> d[k] != '.';
    if i < 0 {
      assert IntToString(i) == ['-'] + d;
    }
  }

  /** For a dotted version whose first two parts are rendered integers, the
      gate is exactly "major above 0, or major 0 and minor at least 43". */
  lemma {:induction false} VersionGate(major: int, minor: int, more: seq<string>)
    requires MinInt <= major <= MaxInt && MinInt <= minor <= MaxInt
    requires forall k :: 0 <= k < |more| ==> '.' !in more[k]
    ensures IsVersionSupported(Join([IntToString(major), IntToString(minor)] + more, '.'))
        <==> major > 0 || (major == 0 && minor >= 43)
  {
    var parts := [IntToString(major), IntToString(minor)] + more;
    NoDotInIntToString(major);
    NoDotInIntToString(minor);
    SplitJoin(parts, '.');
    IntToStringRoundTrip(major);
    IntToStringRoundTrip(minor);
    var v := Join(parts, '.');
    assert v == parts[0] + ['.'] + Join(parts[1..], '.');
    assert v[|parts[0]|] == '.';
  }

  /** The last release before the web client is turned away. */
  lemma ReleaseBeforeWebClientUnsupported()
    ensures !IsVersionSupported("0.42.9")
  {
    assert NatToString(4) == "4";
    assert IntToString(42) == NatToString(4) + "2";
    assert IntToString(42) == "42";
    var parts := [IntToString(0), IntToString(42)] + ["9"];
    assert parts == ["0", "42", "9"];
    assert Join(parts[1..], '.') == "42.9";
    assert Join(parts, '.') == "0.42.9";
    VersionGate(0, 42, ["9"]);
  }

  /** The release that introduced the web client is accepted. */
  lemma WebClientReleaseSupported()
    ensures IsVersionSupported("0.43.0")
  {
    assert NatToString(4) == "4";
    assert IntToString(43) == NatToString(4) + "3";
    assert IntToString(43) == "43";
    var parts := [IntToString(0), IntToString(43)] + ["0"];
    assert parts == ["0", "43", "0"];
    assert Join(parts[1..], '.') == "43.0";
    assert Join(parts, '.') == "0.43.0";
    VersionGate(0, 43, ["0"]);
  }

  /** A later major version is accepted whatever its minor number. */
  lemma MajorReleaseSupported()
    ensures IsVersionSupported("1.0.0")
  {
    var parts := [IntToString(1), IntToString(0)] + ["0"];
    assert parts == ["1", "0", "0"];
    assert Join(parts[1..], '.') == "0.0";
    assert Join(parts, '.') == "1.0.0";
    VersionGate(1, 0, ["0"]);
  }

  /** A version without a dot is never supported. */
  lemma UndottedVersionUnsupported(version: string)
    requires '.' !in version
    ensures !IsVersionSupported(version)
  {
  }

  /** A reply made of "zellij", whitespace and a version, with whitespace
      around it, is read as that version. */
  lemma VersionFromBanner(lead: string, gap: string, v: string, trail: string)
    requires IsBlank(lead) && IsBlank(gap) && IsBlank(trail)
    requires v != [] && !IsWhitespace(v[0]) && !IsWhitespace(v[|v| - 1])
    ensures VersionFrom(ResultOf(Exited(0, lead + "zellij" + gap + v + trail, ""))) == Some(v)
  {
    var banner := "zellij" + (gap + v);
    assert banner[|banner| - 1] == v[|v| - 1];
    assert lead + "zellij" + gap + v + trail == lead + banner + trail;
    TrimAround(lead, banner, trail);
    SubstringAfterPrefix("zellij", gap + v);
    assert gap + v + [] == gap + v;
    TrimAround(gap, v, []);
  }

  /** A reply without "zellij" in it is read whole, trimmed. */
  lemma VersionWithoutName(out: string, err: string)
    requires !Contains(Trim(out), "zellij")
    ensures VersionFrom(ResultOf(Exited(0, out, err))) == Some(Trim(out))
  {
    if Trim(out) != [] {
      TrimKeeps(Trim(out));
    }
  }

  /** The usual `zellij --version` reply is read as its version number. */
  lemma VersionFromExample()
    ensures VersionFrom(ResultOf(Exited(0, "zellij 0.43.0\n", ""))) == Some("0.43.0")
  {
    assert "zellij 0.43.0\n" == "" + "zellij" + " " + "0.43.0" + "\n";
    VersionFromBanner("", " ", "0.43.0", "\n");
  }

  // ---------------------------------------------------------------------------
  // Session listing.

  /** The trimmed non-blank lines, in order. */
  function NonBlankTrimmed(ls: seq<string>): (r: seq<string>)
    ensures |r| <= |ls|
    ensures forall k :: 0 <= k < |r| ==> r[k] != [] && !IsWhitespace(r[k][0])
                                          && !IsWhitespace(r[k][|r[k]| - 1])
    ensures forall x :: x in r <==> exists l :: l in ls && !IsBlank(l) && x == Trim(l)
  {
    if ls == [] then []
    else
      var rest := NonBlankTrimmed(ls[1..]);
      assert forall l :: l in ls <==> l == ls[0] || l in ls[1..];
      if IsBlank(ls[0]) then rest else [Trim(ls[0])] + rest
  }

  /** The names of a concatenation are the names of its parts, in order. */
  lemma {:induction false} NonBlankTrimmedConcat(a: seq<string>, b: seq<string>)
    ensures NonBlankTrimmed(a + b) == NonBlankTrimmed(a) + NonBlankTrimmed(b)
    decreases |a|
  {
    if a == [] {
      assert a + b == b;
    } else {
      assert (a + b)[0] == a[0];
      assert (a + b)[1..] == a[1..] + b;
      NonBlankTrimmedConcat(a[1..], b);
    }
  }

  /** Each line contributes, in its place, its trimmed text when it is not
      blank and nothing when it is. */
  lemma NonBlankTrimmedLine(before: seq<string>, line: string, after: seq<string>)
    ensures NonBlankTrimmed(before + [line] + after)
         == NonBlankTrimmed(before) + (if IsBlank(line) then [] else [Trim(line)]) + NonBlankTrimmed(after)
  {
    var one := if IsBlank(line) then [] else [Trim(line)];
    assert [line][1..] == [];
    assert NonBlankTrimmed([line]) == one;
    NonBlankTrimmedConcat(before, [line]);
    NonBlankTrimmedConcat(before + [line], after);
  }

  /** `listSessions` on the result of `zellij list-sessions`: the trimmed
      non-blank lines of a successful non-empty output, else nothing. */
  function SessionsFrom(r: Result<CommandResult, Failure>): (names: seq<string>)
    ensures names != [] ==> r.Ok? && r.value.success && r.value.stdout != []
    ensures r.Ok? && r.value.success && r.value.stdout != [] ==> names == NonBlankTrimmed(Lines(r.value.stdout))
  {
    if r.Ok? && r.value.success && r.value.stdout != [] then NonBlankTrimmed(Lines(r.value.stdout))
    else []
  }

  /** `sessionExists`: some listed line contains the name. */
  predicate AnyContains(sessions: seq<string>, name: string) {
    exists k :: 0 <= k < |sessions| && Contains(sessions[k], name)
  }

  /** A listed session is found under its own name. */
  lemma ListedSessionExists(sessions: seq<string>, k: nat)
    requires k < |sessions|
    ensures AnyContains(sessions, sessions[k])
  {
    assert OccursAt(sessions[k], sessions[k], 0);
    ContainsIff(sessions[k], sessions[k]);
  }

  /** The command succeeded and its trimmed output is non-empty, that is,
      the output is not blank (see `Trim`'s contract). */
  predicate SucceededWithOutput(r: Result<CommandResult, Failure>) {
    r.Ok? && r.value.success && !IsBlank(r.value.stdout)
  }

  // ---------------------------------------------------------------------------
  // The procedures, as the command log they leave and the result they return,
  // given the log before them; `c` says whether a client is held.

  type Remote = (nat, string) -> Reply

  function InstalledSpec(remote: Remote, log: seq<Executed>, c: bool): Run<bool> {
    var e := ExecSpec(remote, log, c, WhichCommand("zellij"), ExistsTimeout);
    Run(e.log, ExistsAnswer(e.result))
  }

  function VersionSpec(remote: Remote, log: seq<Executed>, c: bool): Run<Option<string>> {
    var e := ExecSpec(remote, log, c, VersionCommand, 5);
    Run(e.log, VersionFrom(e.result))
  }

  function RunningSpec(remote: Remote, log: seq<Executed>, c: bool): Run<bool> {
    var e := ExecSpec(remote, log, c, PgrepCommand, 5);
    Run(e.log, SucceededWithOutput(e.result))
  }

  /** The process check issued after `i` earlier commands sees the server. */
  predicate SeesServer(remote: Remote, i: nat) {
    SucceededWithOutput(ResultOf(remote(i, PgrepCommand)))
  }

  function PidSpec(remote: Remote, log: seq<Executed>, c: bool): Run<Option<int>> {
    var e := ExecSpec(remote, log, c, PgrepCommand, 5);
    Run(e.log, if SucceededWithOutput(e.result) then ToIntOrNull(Trim(e.result.value.stdout)) else None)
  }

  function TailscaleSpec(remote: Remote, log: seq<Executed>, c: bool): Run<Option<string>> {
    var e := ExecSpec(remote, log, c, TailscaleCommand, 5);
    Run(e.log, if SucceededWithOutput(e.result) then Some(Trim(e.result.value.stdout)) else None)
  }

  function AuthTokenSpec(remote: Remote, log: seq<Executed>, c: bool): Run<Result<string, ZellijError>> {
    var e := ExecSpec(remote, log, c, CreateTokenCommand, 10);
    Run(e.log, AuthTokenFrom(e.result))
  }

  /** The polling loop from its `retries`-th round: one process check per
      round until one sees the server or the rounds run out. */
  function PollSpec(remote: Remote, log: seq<Executed>, c: bool, retries: nat): Run<bool>
    decreases MaxStartupRetries - retries, log
  {
    if retries >= MaxStartupRetries then Run(log, false)
    else
      var p := RunningSpec(remote, log, c);
      if p.result then p else PollSpec(remote, p.log, c, retries + 1)
  }

  /** `startZellijWeb`: the installation check, the version query (its
      answer is only logged), then reuse or launch. */
  function StartSpec(remote: Remote, log: seq<Executed>, c: bool): Run<Result<int, ZellijError>> {
    var installed := InstalledSpec(remote, log, c);
    if !installed.result then Run(installed.log, Err(NotInstalled(NotInstalledMessage)))
    else
      var version := VersionSpec(remote, installed.log, c);
      ReuseOrLaunchSpec(remote, version.log, c)
  }

  /** A server that is already running is reused; otherwise one is launched. */
  function ReuseOrLaunchSpec(remote: Remote, log: seq<Executed>, c: bool): Run<Result<int, ZellijError>> {
    var running := RunningSpec(remote, log, c);
    if running.result then Run(running.log, Ok(DefaultZellijPort))
    else LaunchSpec(remote, running.log, c)
  }

  /** The start command: a throw or a non-zero exit fails, otherwise the
      server is awaited and, when it never shows, the log tail becomes the
      failure message. */
  function LaunchSpec(remote: Remote, log: seq<Executed>, c: bool): Run<Result<int, ZellijError>> {
    var launch := ExecSpec(remote, log, c, StartCommand, 10);
    match launch.result
    case Err(f) => Run(launch.log, Err(Failed(f)))
    case Ok(res) =>
      if !res.success then
        Run(launch.log, Err(StartupFailed("Failed to start Zellij web: " + res.stderr)))
      else
        var polls := PollSpec(remote, launch.log, c, 0);
        if polls.result then Run(polls.log, Ok(DefaultZellijPort))
        else
          var tail := ExecSpec(remote, polls.log, c, TailCommand, 5);
          match tail.result
          case Err(f) => Run(tail.log, Err(Failed(f)))
          case Ok(out) => Run(tail.log, Err(StartupFailed("Zellij web failed to start. Logs:\n" + out.stdout)))
  }

  function StopSpec(remote: Remote, log: seq<Executed>, c: bool): Run<bool> {
    var kill := ExecSpec(remote, log, c, PkillCommand, 5);
    if kill.result.Err? then Run(kill.log, false)
    else
      var check := RunningSpec(remote, kill.log, c);
      Run(check.log, !check.result)
  }

  function ListSpec(remote: Remote, log: seq<Executed>, c: bool): Run<seq<string>> {
    var e := ExecSpec(remote, log, c, ListCommand, 10);
    Run(e.log, SessionsFrom(e.result))
  }

  function KillSpec(remote: Remote, log: seq<Executed>, c: bool, name: string): Run<bool> {
    var e := ExecSpec(remote, log, c, KillCommand(name), 10);
    Run(e.log, e.result.Ok? && e.result.value.success)
  }

  function LogsSpec(remote: Remote, log: seq<Executed>, c: bool, lines: int): Run<string> {
    var e := ExecSpec(remote, log, c, LogsCommand(lines), 5);
    Run(e.log, match e.result
               case Ok(res) => res.stdout
               case Err(f) => "Error retrieving logs: " + MessageText(f))
  }

  // ---------------------------------------------------------------------------
  // What the procedures promise.

  /** Polling only ever appends process checks, at most one per remaining
      round; without a client it issues nothing and reports false. */
  lemma {:induction false} PollIssuesOnlyChecks(remote: Remote, log: seq<Executed>, c: bool, retries: nat)
    requires retries <= MaxStartupRetries
    ensures var p := PollSpec(remote, log, c, retries);
            && log <= p.log
            && |p.log| <= |log| + MaxStartupRetries - retries
            && (forall k :: |log| <= k < |p.log| ==> p.log[k] == Executed(PgrepCommand, 5))
            && (!c ==> p == Run(log, false))
    decreases MaxStartupRetries - retries
  {
    if retries < MaxStartupRetries {
      var first := RunningSpec(remote, log, c);
      if !first.result {
        PollIssuesOnlyChecks(remote, first.log, c, retries + 1);
        assert PollSpec(remote, log, c, retries) == PollSpec(remote, first.log, c, retries + 1);
      }
    }
  }

  /** With a client, polling stops at the first check that sees the server:
      after `k` checks that saw nothing, the `k + 1`-th is the last. */
  lemma {:induction false} PollFindsFirstSighting(remote: Remote, log: seq<Executed>, retries: nat, k: nat)
    requires retries + k < MaxStartupRetries
    requires forall i :: |log| <= i < |log| + k ==> !SeesServer(remote, i)
    requires SeesServer(remote, |log| + k)
    ensures var p := PollSpec(remote, log, true, retries);
            p.result && |p.log| == |log| + k + 1
    decreases k
  {
    var first := RunningSpec(remote, log, true);
    assert first == Run(log + [Executed(PgrepCommand, 5)], SeesServer(remote, |log|));
    if k > 0 {
      PollFindsFirstSighting(remote, first.log, retries + 1, k - 1);
      assert PollSpec(remote, log, true, retries) == PollSpec(remote, first.log, true, retries + 1);
    }
  }

  /** With a client, polling gives up only after every remaining round's
      check saw nothing. */
  lemma {:induction false} PollGivesUp(remote: Remote, log: seq<Executed>, retries: nat)
    requires retries <= MaxStartupRetries
    requires forall i :: |log| <= i < |log| + MaxStartupRetries - retries ==> !SeesServer(remote, i)
    ensures var p := PollSpec(remote, log, true, retries);
            !p.result && |p.log| == |log| + MaxStartupRetries - retries
    decreases MaxStartupRetries - retries
  {
    if retries < MaxStartupRetries {
      var first := RunningSpec(remote, log, true);
      assert !SeesServer(remote, |log|);
      assert first == Run(log + [Executed(PgrepCommand, 5)], false);
      PollGivesUp(remote, first.log, retries + 1);
      assert PollSpec(remote, log, true, retries) == PollSpec(remote, first.log, true, retries + 1);
    }
  }

  /** Without `which zellij` succeeding, start fails as not installed and
      issues nothing else. */
  lemma StartRequiresInstall(remote: Remote, log: seq<Executed>, c: bool)
    requires !InstalledSpec(remote, log, c).result
    ensures StartSpec(remote, log, c).result == Err(NotInstalled(NotInstalledMessage))
    ensures var s := StartSpec(remote, log, c);
            log <= s.log && forall k :: |log| <= k < |s.log| ==> s.log[k].command == WhichCommand("zellij")
  {
  }

  /** A server that is already running is reused: the port is returned after
      the three checks and nothing is started. */
  lemma StartReusesRunningServer(remote: Remote, log: seq<Executed>)
    requires InstalledSpec(remote, log, true).result
    requires SeesServer(remote, |log| + 2)
    ensures StartSpec(remote, log, true)
         == Run(log + [Executed(WhichCommand("zellij"), 5), Executed(VersionCommand, 5), Executed(PgrepCommand, 5)],
                Ok(DefaultZellijPort))
  {
  }

  /** A start command that exits non-zero fails with its error stream. */
  lemma StartReportsLaunchError(remote: Remote, log: seq<Executed>, status: int, out: string, err: string)
    requires InstalledSpec(remote, log, true).result
    requires !SeesServer(remote, |log| + 2)
    requires remote(|log| + 3, StartCommand) == Exited(status, out, err) && status != 0
    ensures StartSpec(remote, log, true).result == Err(StartupFailed("Failed to start Zellij web: " + err))
    ensures |StartSpec(remote, log, true).log| == |log| + 4
  {
  }

  /** After a launch that exits zero, the port is returned as soon as a
      process check sees the server, at most five checks on. */
  lemma StartFindsLaunchedServer(remote: Remote, log: seq<Executed>, out: string, err: string, k: nat)
    requires InstalledSpec(remote, log, true).result
    requires !SeesServer(remote, |log| + 2)
    requires remote(|log| + 3, StartCommand) == Exited(0, out, err)
    requires k < MaxStartupRetries
    requires forall i :: |log| + 4 <= i < |log| + 4 + k ==> !SeesServer(remote, i)
    requires SeesServer(remote, |log| + 4 + k)
    ensures StartSpec(remote, log, true).result == Ok(DefaultZellijPort)
    ensures |StartSpec(remote, log, true).log| == |log| + 5 + k
  {
    var checked := log + [Executed(WhichCommand("zellij"), 5), Executed(VersionCommand, 5),
                          Executed(PgrepCommand, 5)];
    StartLaunchesWhenNotRunning(remote, log);
    PollFindsFirstSighting(remote, checked + [Executed(StartCommand, 10)], 0, k);
  }

  /** After a launch that exits zero, five checks that see nothing make start
      read the log tail and fail with it. */
  lemma StartGivesUpWithLog(remote: Remote, log: seq<Executed>, out: string, err: string,
                            status: int, text: string, errText: string)
    requires InstalledSpec(remote, log, true).result
    requires !SeesServer(remote, |log| + 2)
    requires remote(|log| + 3, StartCommand) == Exited(0, out, err)
    requires forall i :: |log| + 4 <= i < |log| + 9 ==> !SeesServer(remote, i)
    requires remote(|log| + 9, TailCommand) == Exited(status, text, errText)
    ensures StartSpec(remote, log, true).result == Err(StartupFailed("Zellij web failed to start. Logs:\n" + text))
    ensures var s := StartSpec(remote, log, true);
            |s.log| == |log| + 10 && s.log[|log| + 9] == Executed(TailCommand, 5)
  {
    var checked := log + [Executed(WhichCommand("zellij"), 5), Executed(VersionCommand, 5),
                          Executed(PgrepCommand, 5)];
    StartLaunchesWhenNotRunning(remote, log);
    PollGivesUp(remote, checked + [Executed(StartCommand, 10)], 0);
  }

  /** Installed and not yet running: start issues the three checks and
      then goes on as the launch does. */
  lemma StartLaunchesWhenNotRunning(remote: Remote, log: seq<Executed>)
    requires InstalledSpec(remote, log, true).result
    requires !SeesServer(remote, |log| + 2)
    ensures StartSpec(remote, log, true)
         == LaunchSpec(remote, log + [Executed(WhichCommand("zellij"), 5), Executed(VersionCommand, 5),
                                      Executed(PgrepCommand, 5)], true)
  {
    var l1 := log + [Executed(WhichCommand("zellij"), 5)];
    var l2 := l1 + [Executed(VersionCommand, 5)];
    assert VersionSpec(remote, l1, true).log == l2;
    assert RunningSpec(remote, l2, true) == Run(l2 + [Executed(PgrepCommand, 5)], false);
    assert l2 + [Executed(PgrepCommand, 5)]
        == log + [Executed(WhichCommand("zellij"), 5), Executed(VersionCommand, 5), Executed(PgrepCommand, 5)];
  }

  /** The polling loop only reads the oracle at or after its start. */
  lemma {:induction false} PollAgrees(remote: Remote, other: Remote, log: seq<Executed>, c: bool, retries: nat)
    requires forall i :: |log| <= i ==> SeesServer(other, i) == SeesServer(remote, i)
    ensures PollSpec(other, log, c, retries) == PollSpec(remote, log, c, retries)
    decreases MaxStartupRetries - retries
  {
    if retries < MaxStartupRetries {
      var p := RunningSpec(remote, log, c);
      assert SeesServer(other, |log|) == SeesServer(remote, |log|);
      assert RunningSpec(other, log, c) == p;
      if !p.result {
        PollAgrees(remote, other, p.log, c, retries + 1);
      }
    }
  }

  /** Reuse-or-launch only reads the oracle at or after its start. */
  lemma ReuseOrLaunchAgrees(remote: Remote, other: Remote, log: seq<Executed>, c: bool)
    requires forall i, cmd :: |log| <= i ==> other(i, cmd) == remote(i, cmd)
    ensures ReuseOrLaunchSpec(other, log, c) == ReuseOrLaunchSpec(remote, log, c)
  {
    assert other(|log|, PgrepCommand) == remote(|log|, PgrepCommand);
    var running := RunningSpec(remote, log, c);
    assert RunningSpec(other, log, c) == running;
    assert other(|running.log|, StartCommand) == remote(|running.log|, StartCommand);
    var launch := ExecSpec(remote, running.log, c, StartCommand, 10);
    assert ExecSpec(other, running.log, c, StartCommand, 10) == launch;
    forall i | |launch.log| <= i
      ensures SeesServer(other, i) == SeesServer(remote, i)
    {
      assert other(i, PgrepCommand) == remote(i, PgrepCommand);
    }
    PollAgrees(remote, other, launch.log, c, 0);
    PollIssuesOnlyChecks(remote, launch.log, c, 0);
    var polls := PollSpec(remote, launch.log, c, 0);
    assert other(|polls.log|, TailCommand) == remote(|polls.log|, TailCommand);
  }

  /** The version check is advisory: whatever `zellij --version` answers
      (the command issued second), the outcome of start is the same. */
  lemma StartIgnoresVersion(remote: Remote, other: Remote, log: seq<Executed>, c: bool)
    requires forall i, cmd :: i != |log| + 1 ==> other(i, cmd) == remote(i, cmd)
    ensures StartSpec(other, log, c) == StartSpec(remote, log, c)
  {
    assert other(|log|, WhichCommand("zellij")) == remote(|log|, WhichCommand("zellij"));
    var installed := InstalledSpec(remote, log, c);
    assert InstalledSpec(other, log, c) == installed;
    var version := VersionSpec(remote, installed.log, c);
    assert VersionSpec(other, installed.log, c).log == version.log;
    if c {
      assert |version.log| == |log| + 2;
      ReuseOrLaunchAgrees(remote, other, version.log, c);
    }
  }

  /** Stop reports success exactly when the process check after the kill sees
      nothing; a kill that throws makes it report failure. */
  lemma StopReflectsCheck(remote: Remote, log: seq<Executed>, c: bool)
    ensures var s := StopSpec(remote, log, c);
            && (!c ==> s == Run(log, false))
            && (c && remote(|log|, PkillCommand).Threw? ==> s == Run(log + [Executed(PkillCommand, 5)], false))
            && (c && remote(|log|, PkillCommand).Exited? ==>
                  s == Run(log + [Executed(PkillCommand, 5), Executed(PgrepCommand, 5)],
                           !SeesServer(remote, |log| + 1)))
  {
  }

  class ZellijManager {
    const ssh: SSHConnectionManager

    constructor (ssh: SSHConnectionManager)
      ensures this.ssh == ssh
    {
      this.ssh := ssh;
    }

    method IsZellijInstalled() returns (b: bool)
      modifies ssh`executed
      ensures var run := InstalledSpec(ssh.remote, old(ssh.executed), ssh.sshClient.Some?);
              ssh.executed == run.log && b == run.result
    {
      b := ssh.CommandExists("zellij");
    }

    method GetZellijVersion() returns (v: Option<string>)
      modifies ssh`executed
      ensures var run := VersionSpec(ssh.remote, old(ssh.executed), ssh.sshClient.Some?);
              ssh.executed == run.log && v == run.result
    {
      var r := ssh.ExecuteCommand(VersionCommand, 5);
      if r.Ok? && r.value.success {
        v := Some(Trim(SubstringAfter(Trim(r.value.stdout), "zellij")));
      } else {
        v := None;
      }
    }

    method IsZellijWebRunning() returns (b: bool)
      modifies ssh`executed
      ensures var run := RunningSpec(ssh.remote, old(ssh.executed), ssh.sshClient.Some?);
              ssh.executed == run.log && b == run.result
    {
      var r := ssh.ExecuteCommand(PgrepCommand, 5);
      b := r.Ok? && r.value.success && Trim(r.value.stdout) != [];
    }

    method GetZellijWebPid() returns (pid: Option<int>)
      modifies ssh`executed
      ensures var run := PidSpec(ssh.remote, old(ssh.executed), ssh.sshClient.Some?);
              ssh.executed == run.log && pid == run.result
    {
      var r := ssh.ExecuteCommand(PgrepCommand, 5);
      if r.Ok? && r.value.success && Trim(r.value.stdout) != [] {
        pid := ToIntOrNull(Trim(r.value.stdout));
      } else {
        pid := None;
      }
    }

    method GetTailscaleIP() returns (ip: Option<string>)
      modifies ssh`executed
      ensures var run := TailscaleSpec(ssh.remote, old(ssh.executed), ssh.sshClient.Some?);
              ssh.executed == run.log && ip == run.result
    {
      var r := ssh.ExecuteCommand(TailscaleCommand, 5);
      if r.Ok? && r.value.success && Trim(r.value.stdout) != [] {
        ip := Some(Trim(r.value.stdout));
      } else {
        ip := None;
      }
    }

    method GetOrCreateAuthToken() returns (t: Result<string, ZellijError>)
      modifies ssh`executed
      ensures var run := AuthTokenSpec(ssh.remote, old(ssh.executed), ssh.sshClient.Some?);
              ssh.executed == run.log && t == run.result
    {
      var r := ssh.ExecuteCommand(CreateTokenCommand, 10);
      t := AuthTokenFrom(r);
    }

    /** Checks installation, asks for the version (only to report it),
        reuses a running server, else launches one and awaits it. */
    method StartZellijWeb() returns (r: Result<int, ZellijError>)
      modifies ssh`executed
      ensures var run := StartSpec(ssh.remote, old(ssh.executed), ssh.sshClient.Some?);
              ssh.executed == run.log && r == run.result
    {
      var installed := IsZellijInstalled();
      if !installed {
        return Err(NotInstalled(NotInstalledMessage));
      }
      var version := GetZellijVersion();
      var running := IsZellijWebRunning();
      if running {
        return Ok(DefaultZellijPort);
      }
      var launch := ssh.ExecuteCommand(StartCommand, 10);
      if launch.Err? {
        return Err(Failed(launch.error));
      }
      if !launch.value.success {
        return Err(StartupFailed("Failed to start Zellij web: " + launch.value.stderr));
      }
      var found := WaitForServer();
      if found {
        return Ok(DefaultZellijPort);
      }
      var tail := ssh.ExecuteCommand(TailCommand, 5);
      if tail.Err? {
        return Err(Failed(tail.error));
      }
      r := Err(StartupFailed("Zellij web failed to start. Logs:\n" + tail.value.stdout));
    }

    /** The retry loop of `startZellijWeb`: at most `MaxStartupRetries`
        process checks, stopping at the first that sees the server. */
    method WaitForServer() returns (found: bool)
      modifies ssh`executed
      ensures var run := PollSpec(ssh.remote, old(ssh.executed), ssh.sshClient.Some?, 0);
              ssh.executed == run.log && found == run.result
    {
      var retries: nat := 0;
      while retries < MaxStartupRetries
        invariant retries <= MaxStartupRetries
        invariant PollSpec(ssh.remote, ssh.executed, ssh.sshClient.Some?, retries)
               == PollSpec(ssh.remote, old(ssh.executed), ssh.sshClient.Some?, 0)
        decreases MaxStartupRetries - retries
      {
        var running := IsZellijWebRunning();
        if running {
          return true;
        }
        retries := retries + 1;
      }
      found := false;
    }

    /** Kills the server and reports whether a later check no longer sees it;
        a kill that throws reports false. */
    method StopZellijWeb() returns (stopped: bool)
      modifies ssh`executed
      ensures var run := StopSpec(ssh.remote, old(ssh.executed), ssh.sshClient.Some?);
              ssh.executed == run.log && stopped == run.result
    {
      var kill := ssh.ExecuteCommand(PkillCommand, 5);
      if kill.Err? {
        return false;
      }
      var stillRunning := IsZellijWebRunning();
      stopped := !stillRunning;
    }

    method ListSessions() returns (sessions: seq<string>)
      modifies ssh`executed
      ensures var run := ListSpec(ssh.remote, old(ssh.executed), ssh.sshClient.Some?);
              ssh.executed == run.log && sessions == run.result
    {
      var r := ssh.ExecuteCommand(ListCommand, 10);
      sessions := SessionsFrom(r);
    }

    method SessionExists(name: string) returns (b: bool)
      modifies ssh`executed
      ensures var run := ListSpec(ssh.remote, old(ssh.executed), ssh.sshClient.Some?);
              ssh.executed == run.log && (b <==> AnyContains(run.result, name))
    {
      var sessions := ListSessions();
      b := exists k :: 0 <= k < |sessions| && Contains(sessions[k], name);
    }

    method KillSession(name: string) returns (b: bool)
      modifies ssh`executed
      ensures var run := KillSpec(ssh.remote, old(ssh.executed), ssh.sshClient.Some?, name);
              ssh.executed == run.log && b == run.result
    {
      var r := ssh.ExecuteCommand(KillCommand(name), 10);
      b := r.Ok? && r.value.success;
    }

    method GetLogs(lines: int) returns (text: string)
      modifies ssh`executed
      ensures var run := LogsSpec(ssh.remote, old(ssh.executed), ssh.sshClient.Some?, lines);
              ssh.executed == run.log && text == run.result
    {
      var r := ssh.ExecuteCommand(LogsCommand(lines), 5);
      match r
      case Ok(res) => text := res.stdout;
      case Err(f) => text := "Error retrieving logs: " + MessageText(f);
    }
  }
}
