/**
 * The per-repository coordination namespace: the directory a repository URL
 * resolves to, and `Init`, which creates that directory and its three stores.
 *
 * SHA-256 and the user's home directory are not modelled: the digest is a
 * function-valued parameter `sha` (any function yielding 32 bytes) and the home
 * directory an `Option<string>` (None when it cannot be determined).
 */
module CoordinationDir {
  import opened Wrappers
  import Text

  newtype byte = x: int | 0 <= x < 256

  type Digest = d: seq<byte> | |d| == 32 witness seq(32, _ => 0)

  /** A lower-case hexadecimal digit, as `encoding/hex` writes it. */
  function HexDigit(v: nat): char
    requires v < 16
  {
    if v < 10 then ('0' as int + v) as char else ('a' as int + v - 10) as char
  }

  predicate IsHexDigit(c: char) {
    '0' <= c <= '9' || 'a' <= c <= 'f'
  }

  predicate IsLowerHex(s: string) {
    forall k :: 0 <= k < |s| ==> IsHexDigit(s[k])
  }

  function HexByte(b: byte): string {
    [HexDigit(b as int / 16), HexDigit(b as int % 16)]
  }

  /** `hex.EncodeToString`: two digits per byte, high nibble first. */
  function HexEncode(bs: seq<byte>): (r: string)
    ensures |r| == 2 * |bs|
    ensures IsLowerHex(r)
  {
    if bs == [] then [] else HexByte(bs[0]) + HexEncode(bs[1..])
  }

  /** The value of a hex digit. */
  function HexValue(c: char): (v: nat)
    requires IsHexDigit(c)
    ensures v < 16 && HexDigit(v) == c
  {
    if '0' <= c <= '9' then (c as int - '0' as int) else (c as int - 'a' as int) + 10
  }

  lemma HexValueOfDigit(v: nat)
    requires v < 16
    ensures HexValue(HexDigit(v)) == v
  {
  }

  /** Inverse of `HexEncode`; None on odd length or a non-digit. */
  function HexDecode(s: string): (r: Option<seq<byte>>)
    ensures r.Some? ==> 2 * |r.value| == |s|
    decreases |s|
  {
    if s == [] then Some([])
    else if |s| == 1 || !IsHexDigit(s[0]) || !IsHexDigit(s[1]) then None
    else match HexDecode(s[2..])
      case None => None
      case Some(rest) => Some([(HexValue(s[0]) * 16 + HexValue(s[1])) as byte] + rest)
  }

  lemma {:induction false} HexRoundTrip(bs: seq<byte>)
    ensures HexDecode(HexEncode(bs)) == Some(bs)
  {
    if bs != [] {
      var b := bs[0];
      var e := HexEncode(bs);
      assert e == HexByte(b) + HexEncode(bs[1..]);
      assert e[2..] == HexEncode(bs[1..]);
      HexRoundTrip(bs[1..]);
      HexValueOfDigit(b as int / 16);
      HexValueOfDigit(b as int % 16);
      assert HexValue(e[0]) * 16 + HexValue(e[1]) == b as int;
      assert [bs[0]] + bs[1..] == bs;
    }
  }

  /** Encoding commutes with taking a prefix: the first 2n digits encode the first n bytes. */
  lemma {:induction false} HexEncodePrefix(bs: seq<byte>, n: nat)
    requires n <= |bs|
    ensures HexEncode(bs)[..2 * n] == HexEncode(bs[..n])
  {
    if n > 0 {
      HexEncodePrefix(bs[1..], n - 1);
      assert bs[..n] == [bs[0]] + bs[1..][..n - 1];
      assert HexEncode(bs[..n]) == HexByte(bs[0]) + HexEncode(bs[1..][..n - 1]);
    }
  }

  /**
   * `repoHash`: the first 12 characters of the hex form of the URL's digest.
   * The result is 12 lower-case hex digits and decodes to the digest's first six bytes.
   */
  function RepoHash(sha: string -> Digest, url: string): (h: string)
    ensures |h| == 12 && IsLowerHex(h)
    ensures HexDecode(h) == Some(sha(url)[..6])
  {
    var d := sha(url);
    HexEncodePrefix(d, 6);
    HexRoundTrip(d[..6]);
    HexEncode(d)[..12]
  }

  /** `filepath.Join` of two components (path cleaning is not modelled). */
  function JoinPath(dir: string, name: string): string {
    if dir == [] then name else dir + "/" + name
  }

  datatype InitError = NoHome | MkdirFailed(dir: string) | WriteFailed(path: string)

  /** `CoordDir`: `<home>/.agentctl/coordination/<repoHash(url)>`, or NoHome. */
  function CoordDir(home: Option<string>, sha: string -> Digest, url: string): (r: Result<string, InitError>)
    ensures home.None? <==> r == Err(NoHome)
    ensures r.Ok? ==> Text.HasSuffix(r.value, "/" + RepoHash(sha, url))
    ensures r.Ok? && home.value != [] ==> r.value == home.value + "/.agentctl/coordination/" + RepoHash(sha, url)
  {
    match home
    case None => Err(NoHome)
    case Some(h) =>
      var hash := RepoHash(sha, url);
      var base := JoinPath(JoinPath(h, ".agentctl"), "coordination");
      assert base != [];
      var dir := JoinPath(base, hash);
      assert dir == base + ("/" + hash);
      assert dir[|base|..] == "/" + hash;
      Ok(dir)
  }

  /** Two URLs share a namespace (for a given home) exactly when their hashes agree. */
  lemma SameNamespaceIffSameHash(home: string, sha: string -> Digest, u1: string, u2: string)
    ensures CoordDir(Some(home), sha, u1) == CoordDir(Some(home), sha, u2)
            <==> RepoHash(sha, u1) == RepoHash(sha, u2)
  {
    var d1, d2 := CoordDir(Some(home), sha, u1).value, CoordDir(Some(home), sha, u2).value;
    if d1 == d2 {
      assert d1[|d1| - 12..] == RepoHash(sha, u1);
      assert d2[|d2| - 12..] == RepoHash(sha, u2);
    }
  }

  /** The three stores of a namespace and the text `Init` writes into one it creates. */
  function ClaimsPath(dir: string): string { JoinPath(dir, "claims.json") }
  function MessagesPath(dir: string): string { JoinPath(dir, "messages.jsonl") }
  function StatePath(dir: string): string { JoinPath(dir, "state.json") }

  /** The three stores are three different files, none of them the directory itself. */
  lemma StorePathsDistinct(dir: string)
    ensures ClaimsPath(dir) != MessagesPath(dir) && ClaimsPath(dir) != StatePath(dir) && MessagesPath(dir) != StatePath(dir)
    ensures dir != ClaimsPath(dir) && dir != MessagesPath(dir) && dir != StatePath(dir)
  {
    if dir != [] {
      var k := |dir| + 1;
      assert ClaimsPath(dir)[k] == 'c' && MessagesPath(dir)[k] == 'm' && StatePath(dir)[k] == 's';
    }
  }

  const EmptyClaims: string := "{}\n"
  const EmptyMessages: string := ""
  const EmptyState: string := "{\"agents\":{},\"last_updated\":\"\"}\n"

  /**
   * The part of the host file system `Init` touches: directories, files with
   * their text, the paths the operating system refuses to create
   * (permissions, a full disk), and the paths on which `os.Stat` fails for a
   * reason other than their absence (a directory that cannot be searched, a
   * loop of symbolic links).
   */
  class Disk {
    var dirs: set<string>
    var files: map<string, string>
    const denied: set<string>
    const unstatable: set<string>

    constructor (dirs: set<string>, files: map<string, string>, denied: set<string>, unstatable: set<string>)
      ensures this.dirs == dirs && this.files == files && this.denied == denied && this.unstatable == unstatable
    {
      this.dirs := dirs;
      this.files := files;
      this.denied := denied;
      this.unstatable := unstatable;
    }

    /** Something, a file or a directory, is at `path`. */
    predicate Exists(path: string)
      reads this
    {
      path in files || path in dirs
    }

    /** `os.Stat` fails with an error for which `os.IsNotExist` holds. */
    predicate StatMissing(path: string)
      reads this
    {
      path !in unstatable && !Exists(path)
    }

    /**
     * `os.MkdirAll`: succeeds on an existing directory; fails on a regular
     * file at the path (ENOTDIR) and on a refused path.
     */
    method MkdirAll(path: string) returns (ok: bool)
      modifies this
      ensures ok <==> path in old(dirs) || (path !in old(files) && path !in denied)
      ensures dirs == if ok then old(dirs) + {path} else old(dirs)
      ensures files == old(files)
    {
      ok := path in dirs || (path !in files && path !in denied);
      if ok {
        dirs := dirs + {path};
      }
    }

    /**
     * One step of `Init`: only when `os.Stat` reports the path absent is it
     * written with `text`; any other outcome of `os.Stat` skips the write.
     */
    method CreateIfAbsent(path: string, text: string) returns (ok: bool)
      modifies this
      ensures ok <==> !old(StatMissing(path)) || path !in denied
      ensures files == if !old(StatMissing(path)) || !ok then old(files) else old(files)[path := text]
      ensures dirs == old(dirs)
    {
      if !StatMissing(path) {
        return true;
      }
      ok := path !in denied;
      if ok {
        files := files[path := text];
      }
    }
  }

  /** The namespace directory and its three stores all exist. */
  ghost predicate Initialised(fs: Disk, dir: string)
    reads fs
  {
    dir in fs.dirs && fs.Exists(ClaimsPath(dir)) && fs.Exists(MessagesPath(dir)) && fs.Exists(StatePath(dir))
  }

  /** A store exists, or `os.Stat` failed on it for a reason other than its absence. */
  ghost predicate Settled(fs: Disk, path: string)
    reads fs
  {
    fs.Exists(path) || path in fs.unstatable
  }

  /** What a successful `Init` leaves: the directory, and each store settled. */
  ghost predicate Prepared(fs: Disk, dir: string)
    reads fs
  {
    dir in fs.dirs && Settled(fs, ClaimsPath(dir)) && Settled(fs, MessagesPath(dir)) && Settled(fs, StatePath(dir))
  }

  /** `os.Stat` either succeeds or reports absence on each store of `dir`. */
  ghost predicate StatsClean(fs: Disk, dir: string)
    reads fs
  {
    ClaimsPath(dir) !in fs.unstatable && MessagesPath(dir) !in fs.unstatable && StatePath(dir) !in fs.unstatable
  }

  /** A store is not reported absent, or `os.WriteFile` may create it. */
  ghost predicate Creatable(fs: Disk, path: string)
    reads fs
  {
    !fs.StatMissing(path) || path !in fs.denied
  }

  /**
   * `Init` can succeed: the directory exists, or nothing is at its path and
   * it may be made; and each store may be passed over or written.
   */
  ghost predicate InitCanSucceed(fs: Disk, dir: string)
    reads fs
  {
    (dir in fs.dirs || (dir !in fs.files && dir !in fs.denied))
    && Creatable(fs, ClaimsPath(dir)) && Creatable(fs, MessagesPath(dir)) && Creatable(fs, StatePath(dir))
  }

  /** Every file that was there is still there with the same text. */
  ghost predicate Keeps(before: map<string, string>, after: map<string, string>) {
    forall p :: p in before ==> p in after && after[p] == before[p]
  }

  /** The only new files are absent stores, each holding its empty text. */
  ghost predicate OnlyEmptyStores(before: map<string, string>, after: map<string, string>, dir: string) {
    forall p :: p in after && p !in before ==>
      (p == ClaimsPath(dir) && after[p] == EmptyClaims)
      || (p == MessagesPath(dir) && after[p] == EmptyMessages)
      || (p == StatePath(dir) && after[p] == EmptyState)
  }

  /** No file appears at a path on which `os.Stat` fails otherwise than by absence. */
  ghost predicate NoneWhereStatFails(fs: Disk, before: map<string, string>)
    reads fs
  {
    forall p :: p in fs.files && p !in before ==> p !in fs.unstatable
  }

  /** The second half of `Init`: create each absent store of `dir`, stopping at the first write that fails. */
  method CreateStores(fs: Disk, dir: string) returns (r: Result<string, InitError>)
    modifies fs
    ensures r.Ok? <==>
              old(Creatable(fs, ClaimsPath(dir)) && Creatable(fs, MessagesPath(dir)) && Creatable(fs, StatePath(dir)))
    ensures r.Ok? ==> r.value == dir && Settled(fs, ClaimsPath(dir)) && Settled(fs, MessagesPath(dir)) && Settled(fs, StatePath(dir))
    ensures r.Ok? && StatsClean(fs, dir) ==>
              fs.Exists(ClaimsPath(dir)) && fs.Exists(MessagesPath(dir)) && fs.Exists(StatePath(dir))
    ensures r.Err? ==> r.error.WriteFailed?
    ensures old(fs.Exists(ClaimsPath(dir)) && fs.Exists(MessagesPath(dir)) && fs.Exists(StatePath(dir))) ==>
              r == Ok(dir) && fs.files == old(fs.files)
    ensures OnlyEmptyStores(old(fs.files), fs.files, dir) && Keeps(old(fs.files), fs.files) && fs.dirs == old(fs.dirs)
    ensures NoneWhereStatFails(fs, old(fs.files))
  {
    StorePathsDistinct(dir);
    var ok := fs.CreateIfAbsent(ClaimsPath(dir), EmptyClaims);
    if !ok {
      return Err(WriteFailed(ClaimsPath(dir)));
    }
    ok := fs.CreateIfAbsent(MessagesPath(dir), EmptyMessages);
    if !ok {
      return Err(WriteFailed(MessagesPath(dir)));
    }
    ok := fs.CreateIfAbsent(StatePath(dir), EmptyState);
    if !ok {
      return Err(WriteFailed(StatePath(dir)));
    }
    r := Ok(dir);
  }

  /** `Init`: create the namespace directory, then each store that is absent, with its empty text. */
  method Init(fs: Disk, home: Option<string>, sha: string -> Digest, url: string) returns (r: Result<string, InitError>)
    modifies fs
    ensures home.None? ==> r == Err(NoHome) && fs.files == old(fs.files) && fs.dirs == old(fs.dirs)
    ensures home.Some? ==>
      var dir := CoordDir(home, sha, url).value;
      && (r.Ok? <==> old(InitCanSucceed(fs, dir)))
      && (r.Ok? ==> r.value == dir && Prepared(fs, dir))
      && (r.Ok? && StatsClean(fs, dir) ==> Initialised(fs, dir))
      && (r == Err(MkdirFailed(dir)) <==> dir !in old(fs.dirs) && (dir in old(fs.files) || dir in fs.denied))
      && OnlyEmptyStores(old(fs.files), fs.files, dir)
      && (old(Initialised(fs, dir)) ==> r == Ok(dir) && fs.files == old(fs.files) && fs.dirs == old(fs.dirs))
    ensures Keeps(old(fs.files), fs.files)
    ensures NoneWhereStatFails(fs, old(fs.files))
    ensures fs.dirs >= old(fs.dirs)
  {
    var coord := CoordDir(home, sha, url);
    if coord.Err? {
      return Err(coord.error);
    }
    var dir := coord.value;
    var made := fs.MkdirAll(dir);
    if !made {
      return Err(MkdirFailed(dir));
    }
    StorePathsDistinct(dir);
    r := CreateStores(fs, dir);
  }
}
