/** The daemon's asset registry (`assets.Manager`): files registered under
    random IDs, served at `/assets/<id>` until they expire, and swept away
    by a periodic cleanup.

    Time is an integer count of nanoseconds (Go's `time.Time` resolution).
    The path resolution and existence check of the file system, the random
    bytes and the clock are parameters. */
module Assets {
  import opened Wrappers

  datatype AssetEntry = AssetEntry(filePath: string, expiresAt: int)

  /** Thirty minutes, in nanoseconds. */
  const AssetLifetime: int := 30 * 60 * 1_000_000_000

  datatype Response = ServeFile(filePath: string) | NotFound

  datatype RegisterError = AbsFailed | StatFailed

  /** `time.Now().After(expiresAt)`. */
  predicate Expired(e: AssetEntry, now: int) {
    now > e.expiresAt
  }

  newtype Byte = b: int | 0 <= b < 256

  const HexDigits: string := "0123456789abcdef"

  predicate IsHexDigit(c: char) {
    '0' <= c <= '9' || 'a' <= c <= 'f'
  }

  /** The value of a lowercase hexadecimal digit. */
  function HexValue(c: char): (n: int)
    requires IsHexDigit(c)
    ensures 0 <= n < 16
  {
    if c <= '9' then c as int - '0' as int else c as int - 'a' as int + 10
  }

  predicate IsLowerHex(s: string) {
    forall i :: 0 <= i < |s| ==> IsHexDigit(s[i])
  }

  /** `hex.EncodeToString`: two lowercase digits per byte, high nibble
      first. */
  function HexEncode(b: seq<Byte>): (s: string)
    ensures |s| == 2 * |b|
    ensures IsLowerHex(s)
  {
    if b == [] then []
    else [HexDigits[b[0] as int / 16], HexDigits[b[0] as int % 16]] + HexEncode(b[1..])
  }

  /** Reads a string of lowercase hexadecimal digit pairs back into bytes. */
  function HexDecode(s: string): seq<Byte>
    requires |s| % 2 == 0 && IsLowerHex(s)
  {
    if s == [] then []
    else [(HexValue(s[0]) * 16 + HexValue(s[1])) as Byte] + HexDecode(s[2..])
  }

  /** Each digit reads back as the value it was written for. */
  lemma DigitRoundTrip(n: int)
    requires 0 <= n < 16
    ensures HexValue(HexDigits[n]) == n
  {
  }

  /** Encoding loses nothing: decoding gives the bytes back. */
  lemma {:induction false} HexRoundTrip(b: seq<Byte>)
    ensures HexDecode(HexEncode(b)) == b
  {
    if b != [] {
      var s := HexEncode(b);
      assert s[2..] == HexEncode(b[1..]);
      DigitRoundTrip(b[0] as int / 16);
      DigitRoundTrip(b[0] as int % 16);
      HexRoundTrip(b[1..]);
    }
  }

  /** `generateID`: the hex encoding of the eight random bytes read. */
  function GenerateId(random: seq<Byte>): (id: string)
    requires |random| == 8
    ensures |id| == 16 && IsLowerHex(id)
    ensures HexDecode(id) == random
  {
    HexRoundTrip(random);
    HexEncode(random)
  }

  /** `filepath.Base` with `/` separators: the last element after trailing
      slashes are dropped; "." for the empty path, "/" for slashes only. */
  function Base(path: string): (r: string)
    ensures r != []
    ensures '/' !in r || r == "/"
  {
    if path == [] then "."
    else
      var trimmed := DropTrailingSlashes(path);
      if trimmed == [] then "/" else AfterLastSlash(trimmed)
  }

  function DropTrailingSlashes(path: string): (r: string)
    ensures r <= path
    ensures r == [] || r[|r| - 1] != '/'
  {
    if path != [] && path[|path| - 1] == '/' then DropTrailingSlashes(path[..|path| - 1]) else path
  }

  /** The text after the last slash; all of `s` when it has none. */
  function AfterLastSlash(s: string): (r: string)
    ensures '/' !in r
    ensures s != [] && s[|s| - 1] != '/' ==> r != []
  {
    if s == [] || s[|s| - 1] == '/' then [] else AfterLastSlash(s[..|s| - 1]) + [s[|s| - 1]]
  }

  /** A slash-free ending after a slash is the last element. */
  lemma {:induction false} AfterLastSlashOf(a: string, r: string)
    requires '/' !in r
    ensures AfterLastSlash(a + "/" + r) == r
    ensures AfterLastSlash(r) == r
    decreases |r|
  {
    if r != [] {
      var s := a + "/" + r;
      var init := r[..|r| - 1];
      assert s[..|s| - 1] == a + "/" + init;
      assert r[|r| - 1] in r;
      AfterLastSlashOf(a, init);
      assert init + [r[|r| - 1]] == r;
    }
  }

  /** A request for `<anything>/<id>` looks the ID up. */
  lemma BaseOfNestedPath(prefix: string, id: string)
    requires id != [] && '/' !in id
    ensures Base(prefix + "/" + id) == id
    ensures Base(id) == id
  {
    var p := prefix + "/" + id;
    assert p[|p| - 1] == id[|id| - 1];
    assert id[|id| - 1] in id;
    AfterLastSlashOf(prefix, id);
  }

  /** `ServeHTTP`: the file of the entry named by the last path element,
      unless it is unknown or has expired. */
  function Serve(assets: map<string, AssetEntry>, urlPath: string, now: int): (r: Response)
    ensures r.ServeFile? <==> Base(urlPath) in assets && !Expired(assets[Base(urlPath)], now)
    ensures r.ServeFile? ==> r.filePath == assets[Base(urlPath)].filePath
  {
    var id := Base(urlPath);
    if id !in assets || Expired(assets[id], now) then NotFound else ServeFile(assets[id].filePath)
  }

  /** What one cleanup pass at time `now` keeps: the unexpired entries. */
  function Live(assets: map<string, AssetEntry>, now: int): (r: map<string, AssetEntry>)
    ensures forall id :: id in r <==> id in assets && !Expired(assets[id], now)
    ensures forall id :: id in r ==> r[id] == assets[id]
  {
    map id | id in assets && !Expired(assets[id], now) :: assets[id]
  }

  /** A sweep is invisible to lookups made at its time or later, and a
      second sweep removes nothing more. */
  lemma SweepInvisible(assets: map<string, AssetEntry>, t: int, now: int, urlPath: string)
    requires t <= now
    ensures Serve(Live(assets, t), urlPath, now) == Serve(assets, urlPath, now)
    ensures Live(Live(assets, t), t) == Live(assets, t)
  {
  }

  /** A file registered at `t` is served from its new ID until exactly
      thirty minutes later, and not after. */
  lemma RegisteredServedForLifetime(assets: map<string, AssetEntry>, id: string, absPath: string,
                                    t: int, now: int)
    requires id != [] && '/' !in id
    ensures now <= t + AssetLifetime ==>
      Serve(assets[id := AssetEntry(absPath, t + AssetLifetime)], "/" + id, now) == ServeFile(absPath)
    ensures now > t + AssetLifetime ==>
      Serve(assets[id := AssetEntry(absPath, t + AssetLifetime)], "/" + id, now) == NotFound
  {
    BaseOfNestedPath("", id);
    assert "" + "/" + id == "/" + id;
  }

  class Manager {
    var assets: map<string, AssetEntry>

    constructor ()
      ensures assets == map[]
    {
      assets := map[];
    }

    /** Registers a file: `abs` is what path resolution gave (None on
        error), `statOk` whether the resolved file could be examined,
        `random` the bytes read for the ID and `now` the clock. */
    method Register(filePath: string, abs: Option<string>, statOk: bool, random: seq<Byte>, now: int)
      returns (id: string, err: Option<RegisterError>)
      requires |random| == 8
      modifies this
      ensures abs.None? ==> id == "" && err == Some(AbsFailed) && assets == old(assets)
      ensures abs.Some? && !statOk ==> id == "" && err == Some(StatFailed) && assets == old(assets)
      ensures abs.Some? && statOk ==>
        && err.None? && id == GenerateId(random)
        && assets == old(assets)[id := AssetEntry(abs.value, now + AssetLifetime)]
    {
      if abs.None? {
        return "", Some(AbsFailed);
      }
      if !statOk {
        return "", Some(StatFailed);
      }
      id := GenerateId(random);
      assets := assets[id := AssetEntry(abs.value, now + AssetLifetime)];
      err := None;
    }

    method ServeHTTP(urlPath: string, now: int) returns (r: Response)
      ensures r == Serve(assets, urlPath, now)
    {
      var id := Base(urlPath);
      if id !in assets || now > assets[id].expiresAt {
        return NotFound;
      }
      r := ServeFile(assets[id].filePath);
    }

    /** One tick of the cleanup routine: deletes every entry expired at
        `now`, one at a time. */
    method CleanupSweep(now: int)
      modifies this
      ensures assets == Live(old(assets), now)
    {
      var pending := assets.Keys;
      while pending != {}
        invariant pending <= old(assets).Keys
        invariant forall id :: id in assets <==> id in old(assets) && (id in pending || !Expired(old(assets)[id], now))
        invariant forall id :: id in assets ==> assets[id] == old(assets)[id]
        decreases pending
      {
        var id :| id in pending;
        if now > assets[id].expiresAt {
          assets := assets - {id};
        }
        pending := pending - {id};
      }
      assert assets.Keys == Live(old(assets), now).Keys;
    }
  }
}
