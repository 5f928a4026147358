/** The seed files on disk: `create_files` writes each payload to a fresh
    temporary file in the scratch directory and, when a write fails,
    unlinks every file it created in that call. */
module Artifacts {
  import opened Files

  /** The NoCloud file names a guest looks for. */
  datatype Role = MetaData | UserData | NetworkConfig {
    function Name(): string
    {
      match this
      case MetaData => "meta-data"
      case UserData => "user-data"
      case NetworkConfig => "network-config"
    }
  }

  datatype Payload = Payload(content: string, role: Role)
  datatype FilePair = FilePair(path: Path, role: Role)

  /** What the world does to one file: nothing goes wrong, the temporary
      file cannot be created, or it is created and the write fails. */
  datatype Fault = NoFault | CreateFault | WriteFault

  const Prefix: string := "virtinst-"

  /** The name `NamedTemporaryFile(prefix="virtinst-", suffix="-<role>",
      dir=scratchdir)` gives a file; `token` is its random middle part,
      which never holds a '/'. */
  function TempPath(dir: Path, role: Role, token: string): (p: Path)
    requires '/' !in token
    ensures IsTempPathFor(dir, role, p)
  {
    var head := dir + "/" + Prefix;
    var tail := "-" + role.Name();
    var p := head + token + tail;
    assert p[|head|..|p| - |tail|] == token;
    p
  }

  /** `p` is `dir`, a '/', the prefix, a token without '/' and the role. */
  predicate IsTempPathFor(dir: Path, role: Role, p: Path)
  {
    var head := dir + "/" + Prefix;
    var tail := "-" + role.Name();
    |head| + |tail| <= |p| && var token := p[|head|..|p| - |tail|];
      p == head + token + tail && '/' !in token
  }

  /** A temporary file for a role is a file directly named under `dir`
      whose name ends in the role's name. */
  lemma TempPathInDir(dir: Path, role: Role, p: Path)
    requires IsTempPathFor(dir, role, p)
    ensures |dir| < |p| && p[..|dir|] == dir && p[|dir|] == '/'
    ensures |p| >= |dir| + |Prefix| + |role.Name()| + 2 && p[|p| - |role.Name()|..] == role.Name()
    ensures '/' !in p[|dir| + 1..]
  {
    var head := dir + "/" + Prefix;
    var tail := "-" + role.Name();
    var token := p[|head|..|p| - |tail|];
    var name := Prefix + token + tail;
    assert p == dir + ("/" + name) by {
      assert p == head + token + tail;
    }
    SplitAt(p, dir, "/" + name);
    assert p[|dir| + 1..] == name by {
      assert p[|dir| + 1..] == p[|dir|..][1..];
    }
    NameHasNoSlash(role, token);
    assert p == (head + token + "-") + role.Name() by {
      assert p == head + token + tail;
    }
    SplitAt(p, head + token + "-", role.Name());
  }

  /** The two parts of a concatenation. */
  lemma SplitAt(p: string, a: string, b: string)
    requires p == a + b
    ensures p[..|a|] == a && p[|a|..] == b
  {
  }

  /** The file name after the directory's '/' holds no '/'. */
  lemma NameHasNoSlash(role: Role, token: string)
    requires '/' !in token
    ensures '/' !in Prefix + token + ("-" + role.Name())
  {
    assert '/' !in Prefix && '/' !in "-" + role.Name();
  }

  /** The payloads `create_files` writes, in order: meta-data, user-data,
      and network-config only when its content is not empty. */
  function Payloads(meta: string, user: string, net: string): (r: seq<Payload>)
    ensures 2 <= |r| <= 3
    ensures r[0] == Payload(meta, MetaData) && r[1] == Payload(user, UserData)
    ensures |r| == 3 <==> net != ""
    ensures |r| == 3 ==> r[2] == Payload(net, NetworkConfig)
  {
    [Payload(meta, MetaData), Payload(user, UserData)]
      + if net != "" then [Payload(net, NetworkConfig)] else []
  }

  /** The index of the first of `n` file operations that fails, or `n`;
      `fault(i)` is what happens to the file of the `i`-th payload. */
  function FirstFault(n: nat, fault: nat -> Fault): (k: nat)
    ensures k <= n
    ensures forall i :: 0 <= i < k ==> fault(i) == NoFault
    ensures k < n ==> fault(k) != NoFault
  {
    if n == 0 then 0
    else
      var k := FirstFault(n - 1, fault);
      if k < n - 1 || fault(n - 1) != NoFault then k else n
  }

  /** FirstFault is the only index with a fault-free prefix that is `n` or faulty. */
  lemma FirstFaultAt(n: nat, fault: nat -> Fault, i: nat)
    requires i <= n
    requires forall j :: 0 <= j < i ==> fault(j) == NoFault
    requires i < n ==> fault(i) != NoFault
    ensures FirstFault(n, fault) == i
  {
  }

  function PathSet(pairs: seq<FilePair>): set<Path>
  {
    set i | 0 <= i < |pairs| :: pairs[i].path
  }

  /** An upper bound on the length of the paths in a set. */
  ghost function MaxLength(paths: set<Path>): (n: nat)
    ensures forall p :: p in paths ==> |p| <= n
  {
    if paths == {} then 0
    else
      var p :| p in paths;
      var m := MaxLength(paths - {p});
      if |p| > m then |p| else m
  }

  /** Some temporary name is always free: the file system is finite. */
  lemma FreshTempPathExists(dir: Path, role: Role, fs: FileSystem)
    ensures exists token :: '/' !in token && TempPath(dir, role, token) !in fs
  {
    var n := MaxLength(fs.Keys);
    var token := seq(n + 1, _ => 'x');
    assert |TempPath(dir, role, token)| > n;
  }

  /** After a successful call: one fresh file per payload, in order, each
      holding its payload and named for its role, and no other file changed. */
  function Committed(dir: Path, data: seq<Payload>, fs: FileSystem, pairs: seq<FilePair>, fs': FileSystem): (b: bool)
    ensures b ==> fs.Keys <= fs'.Keys && fs'.Keys - fs.Keys == PathSet(pairs)
  {
    && |pairs| == |data|
    && (forall i :: 0 <= i < |pairs| ==>
          pairs[i].role == data[i].role && IsTempPathFor(dir, data[i].role, pairs[i].path)
          && pairs[i].path !in fs && pairs[i].path in fs' && fs'[pairs[i].path] == data[i].content)
    && (forall i, j :: 0 <= i < j < |pairs| ==> pairs[i].path != pairs[j].path)
    && fs'.Keys == fs.Keys + PathSet(pairs)
    && (forall p :: p in fs ==> fs'[p] == fs[p])
  }

  /** After a failed call: the file system is as before, and the returned
      pairs name the files created before the failure, which no longer exist. */
  function RolledBack(dir: Path, data: seq<Payload>, fault: nat -> Fault, fs: FileSystem,
                      pairs: seq<FilePair>, fs': FileSystem): (b: bool)
    ensures b ==> forall i :: 0 <= i < |pairs| ==> pairs[i].path !in fs'
  {
    var k := FirstFault(|data|, fault);
    && k < |data|
    && |pairs| == (if fault(k) == WriteFault then k + 1 else k)
    && (forall i :: 0 <= i < |pairs| ==>
          pairs[i].role == data[i].role && IsTempPathFor(dir, data[i].role, pairs[i].path)
          && pairs[i].path !in fs)
    && fs' == fs
  }

  lemma PathSetAppend(pairs: seq<FilePair>, x: FilePair)
    ensures PathSet(pairs + [x]) == PathSet(pairs) + {x.path}
  {
    var ps := pairs + [x];
    assert ps[|pairs|] == x;
    assert forall i :: 0 <= i < |pairs| ==> ps[i] == pairs[i];
  }

  /** Removing the files a call added gives back the file system it started from. */
  lemma ForgetFresh(fs: FileSystem, pairs: seq<FilePair>, fs': FileSystem)
    requires forall i :: 0 <= i < |pairs| ==> pairs[i].path !in fs
    requires fs'.Keys == fs.Keys + PathSet(pairs)
    requires forall p :: p in fs ==> fs'[p] == fs[p]
    ensures fs' - PathSet(pairs) == fs
  {
    var r := fs' - PathSet(pairs);
    assert r.Keys == fs.Keys;
  }

  /** The cleanup of `create_files`: `os.unlink` on every created path. */
  method RemoveFiles(fs: FileSystem, pairs: seq<FilePair>) returns (fs': FileSystem)
    ensures fs' == fs - PathSet(pairs)
  {
    fs' := fs;
    var j := 0;
    while j < |pairs|
      invariant 0 <= j <= |pairs|
      invariant fs' == fs - PathSet(pairs[..j])
    {
      PathSetAppend(pairs[..j], pairs[j]);
      assert pairs[..j + 1] == pairs[..j] + [pairs[j]];
      fs' := fs' - {pairs[j].path};
      j := j + 1;
    }
    assert pairs[..|pairs|] == pairs;
  }

  /** The name `NamedTemporaryFile` picks: a temporary name for the role
      that no existing file has; which one is left open. */
  method CreateTemp(dir: Path, role: Role, fs: FileSystem) returns (path: Path)
    ensures path !in fs && IsTempPathFor(dir, role, path)
  {
    FreshTempPathExists(dir, role, fs);
    var token :| '/' !in token && TempPath(dir, role, token) !in fs;
    path := TempPath(dir, role, token);
  }

  /** The pairs so far: one per payload in order, each a fresh temporary
      name for its role, no two alike. */
  predicate FreshPairs(dir: Path, data: seq<Payload>, fs: FileSystem, pairs: seq<FilePair>)
  {
    && |pairs| <= |data|
    && (forall j :: 0 <= j < |pairs| ==>
          pairs[j].role == data[j].role && IsTempPathFor(dir, data[j].role, pairs[j].path) && pairs[j].path !in fs)
    && (forall j, k :: 0 <= j < k < |pairs| ==> pairs[j].path != pairs[k].path)
  }

  /** The file system so far: the old files untouched, the new ones added,
      the first `i` of them holding their payloads. */
  predicate FilledUpTo(data: seq<Payload>, fs: FileSystem, pairs: seq<FilePair>, fs': FileSystem, i: nat)
  {
    && i <= |pairs| <= |data|
    && fs'.Keys == fs.Keys + PathSet(pairs)
    && (forall j :: 0 <= j < i ==> pairs[j].path in fs' && fs'[pairs[j].path] == data[j].content)
    && (forall p :: p in fs ==> fs'[p] == fs[p])
  }

  /** Files written so far, up to index `i`: the first `i` payloads written,
      plus the file of payload `i` left empty when its write failed. */
  predicate Written(dir: Path, data: seq<Payload>, fault: nat -> Fault, fs: FileSystem,
                    pairs: seq<FilePair>, fs': FileSystem, i: nat, failed: bool)
  {
    && i <= |data|
    && (forall j :: 0 <= j < i ==> fault(j) == NoFault)
    && (failed ==> i < |data| && fault(i) != NoFault)
    && |pairs| == (if failed && fault(i) == WriteFault then i + 1 else i)
    && FreshPairs(dir, data, fs, pairs)
    && FilledUpTo(data, fs, pairs, fs', i)
  }

  lemma WrittenCreateFault(dir: Path, data: seq<Payload>, fault: nat -> Fault, fs: FileSystem,
                           pairs: seq<FilePair>, fs': FileSystem, i: nat)
    requires Written(dir, data, fault, fs, pairs, fs', i, false)
    requires i < |data| && fault(i) == CreateFault
    ensures Written(dir, data, fault, fs, pairs, fs', i, true)
  {
  }

  lemma FreshPairsAppend(dir: Path, data: seq<Payload>, fs: FileSystem, fs': FileSystem,
                         pairs: seq<FilePair>, path: Path)
    requires FreshPairs(dir, data, fs, pairs) && |pairs| < |data|
    requires fs'.Keys == fs.Keys + PathSet(pairs)
    requires path !in fs' && IsTempPathFor(dir, data[|pairs|].role, path)
    ensures FreshPairs(dir, data, fs, pairs + [FilePair(path, data[|pairs|].role)])
  {
    var ps := pairs + [FilePair(path, data[|pairs|].role)];
    forall j | 0 <= j < |pairs|
      ensures ps[j] == pairs[j] && pairs[j].path != path
    {
      assert pairs[j].path in PathSet(pairs);
    }
  }

  lemma FilledAppend(data: seq<Payload>, fs: FileSystem, pairs: seq<FilePair>, fs': FileSystem,
                     i: nat, path: Path, role: Role, content: string, filled: bool)
    requires FilledUpTo(data, fs, pairs, fs', i) && i == |pairs| < |data|
    requires path !in fs'
    requires filled ==> content == data[i].content
    ensures FilledUpTo(data, fs, pairs + [FilePair(path, role)], fs'[path := content], if filled then i + 1 else i)
  {
    var ps := pairs + [FilePair(path, role)];
    PathSetAppend(pairs, FilePair(path, role));
    assert forall j :: 0 <= j < |pairs| ==> ps[j] == pairs[j];
  }

  /** One more file created and, unless its write failed, filled. */
  lemma WrittenFile(dir: Path, data: seq<Payload>, fault: nat -> Fault, fs: FileSystem,
                    pairs: seq<FilePair>, fs': FileSystem, i: nat, path: Path, content: string)
    requires Written(dir, data, fault, fs, pairs, fs', i, false)
    requires i < |data| && fault(i) != CreateFault
    requires path !in fs' && IsTempPathFor(dir, data[i].role, path)
    requires fault(i) == NoFault ==> content == data[i].content
    ensures var failed := fault(i) == WriteFault;
      Written(dir, data, fault, fs, pairs + [FilePair(path, data[i].role)], fs'[path := content],
              if failed then i else i + 1, failed)
  {
    FreshPairsAppend(dir, data, fs, fs', pairs, path);
    FilledAppend(data, fs, pairs, fs', i, path, data[i].role, content, fault(i) == NoFault);
  }

  /** The `for` loop of `create_files` up to the first exception. */
  method WriteUntilFault(dir: Path, data: seq<Payload>, fs: FileSystem, fault: nat -> Fault)
    returns (pairs: seq<FilePair>, fs': FileSystem, i: nat, failed: bool)
    ensures Written(dir, data, fault, fs, pairs, fs', i, failed)
    ensures failed || i == |data|
  {
    pairs, fs' := [], fs;
    i, failed := 0, false;
    while i < |data| && !failed
      invariant Written(dir, data, fault, fs, pairs, fs', i, failed)
      decreases |data| - i, if failed then 0 else 1
    {
      var role := data[i].role;
      if fault(i) == CreateFault {
        WrittenCreateFault(dir, data, fault, fs, pairs, fs', i);
        failed := true;
      } else {
        var path := CreateTemp(dir, role, fs');
        // the file exists, empty, before anything is written to it
        var content := if fault(i) == WriteFault then "" else data[i].content;
        WrittenFile(dir, data, fault, fs, pairs, fs', i, path, content);
        pairs, fs' := pairs + [FilePair(path, role)], fs'[path := content];
        if fault(i) == WriteFault {
          failed := true;
        } else {
          i := i + 1;
        }
      }
    }
  }

  /** `create_files` apart from building the payloads: write every payload
      to a fresh temporary file; on an exception unlink the files created
      so far and return their pairs without raising. */
  method WriteArtifacts(dir: Path, data: seq<Payload>, fs: FileSystem, fault: nat -> Fault)
    returns (pairs: seq<FilePair>, fs': FileSystem)
    ensures FirstFault(|data|, fault) == |data| ==> Committed(dir, data, fs, pairs, fs')
    ensures FirstFault(|data|, fault) < |data| ==> RolledBack(dir, data, fault, fs, pairs, fs')
  {
    var i, failed;
    pairs, fs', i, failed := WriteUntilFault(dir, data, fs, fault);
    FirstFaultAt(|data|, fault, i);
    if failed {
      ForgetFresh(fs, pairs, fs');
      fs' := RemoveFiles(fs', pairs);
    }
  }

  /** Two calls in a row never hand out the same file name, and a call that
      fails leaves the files of the earlier call in place. */
  lemma SuccessiveCallsDisjoint(dir: Path, data1: seq<Payload>, data2: seq<Payload>, fault2: nat -> Fault,
                                fs0: FileSystem, pairs1: seq<FilePair>, fs1: FileSystem,
                                pairs2: seq<FilePair>, fs2: FileSystem)
    requires Committed(dir, data1, fs0, pairs1, fs1)
    requires Committed(dir, data2, fs1, pairs2, fs2) || RolledBack(dir, data2, fault2, fs1, pairs2, fs2)
    ensures PathSet(pairs1) !! PathSet(pairs2)
    ensures forall i :: 0 <= i < |pairs1| ==> pairs1[i].path in fs2 && fs2[pairs1[i].path] == data1[i].content
  {
  }
}
