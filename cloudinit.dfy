/** `CloudInitData`: the options of a cloud-init install and the NoCloud
    seed files (meta-data, user-data, network-config) built from them. */
module CloudInit {
  import opened Wrappers
  import opened Files
  import opened Scrubbing
  import opened CloudConfig
  import opened Artifacts

  // ---------------------------------------------------------------------
  // The generated root password

  /** `n` consecutive characters from `first` on. */
  function CharRange(first: char, n: nat): (s: string)
    requires first as int + n <= 0xD800
    ensures |s| == n
    ensures forall i :: 0 <= i < n ==> s[i] == (first as int + i) as char
  {
    seq(n, i requires 0 <= i < n => (first as int + i) as char)
  }

  /** `string.ascii_letters + string.digits`. */
  const Alphabet: string := CharRange('a', 26) + CharRange('A', 26) + CharRange('0', 10)

  const PasswordLength: nat := 16

  predicate AlphaNumeric(c: char)
  {
    'a' <= c <= 'z' || 'A' <= c <= 'Z' || '0' <= c <= '9'
  }

  /** The alphabet holds the 62 ASCII letters and digits and nothing else. */
  lemma AlphabetChars()
    ensures |Alphabet| == 62
    ensures forall c :: c in Alphabet <==> AlphaNumeric(c)
  {
    var lower, upper, digits := CharRange('a', 26), CharRange('A', 26), CharRange('0', 10);
    forall c | AlphaNumeric(c)
      ensures c in Alphabet
    {
      if 'a' <= c <= 'z' {
        assert lower[c as int - 'a' as int] == c;
      } else if 'A' <= c <= 'Z' {
        assert upper[c as int - 'A' as int] == c;
      } else {
        assert digits[c as int - '0' as int] == c;
      }
    }
  }

  /** What `_generate_password` produces: 16 letters and digits. */
  predicate IsGeneratedPassword(p: string)
  {
    |p| == PasswordLength && forall i :: 0 <= i < |p| ==> p[i] in Alphabet
  }

  /** A generated password is one line and never empty. */
  lemma GeneratedPasswordIsLine(p: string)
    requires IsGeneratedPassword(p)
    ensures p != [] && '\n' !in p
  {
    AlphabetChars();
    assert !AlphaNumeric('\n');
  }

  /** The memo of `_generate_password`: a password already there is kept,
      otherwise a fresh one is drawn. */
  predicate Memoised(before: string, after: string)
  {
    if before != "" then after == before else IsGeneratedPassword(after)
  }

  /** Once a password is drawn, every later call returns that same one. */
  lemma MemoisedStable(first: string, second: string, third: string)
    requires Memoised(first, second) && Memoised(second, third)
    ensures third == second && Memoised(first, third)
  {
    if first == "" {
      GeneratedPasswordIsLine(second);
    }
  }

  // ---------------------------------------------------------------------
  // Reading the option files ("" stands for an option left unset)

  /** `_get_password` when the option is set, None otherwise. */
  function OptionalFirstLine(fs: FileSystem, p: Path): (r: Result<Option<string>, IoError>)
    ensures r.Err? <==> p != "" && p !in fs
    ensures r.Err? ==> r.error == NotFound(p)
    ensures r.Ok? ==> (r.value.Some? <==> p != "")
    ensures r.Ok? && r.value.Some? ==> r.value.value == FirstLine(fs[p]) && '\n' !in r.value.value
  {
    if p == "" then Ok(None)
    else
      var line :- ReadFirstLine(fs, p);
      Ok(Some(line))
  }

  /** The whole file when the option is set, the empty text otherwise. */
  function OptionalContent(fs: FileSystem, p: Path): (r: Result<string, IoError>)
    ensures r.Err? <==> p != "" && p !in fs
    ensures r.Err? ==> r.error == NotFound(p)
    ensures r.Ok? ==> r.value == if p == "" then "" else fs[p]
  {
    if p == "" then Ok("") else ReadFile(fs, p)
  }

  // ---------------------------------------------------------------------
  // The options object

  class CloudInitData {
    var disable: bool
    var rootPasswordGenerate: bool
    var rootPasswordFile: Path
    var generatedRootPassword: string
    var rootSshKey: Path
    var clouduserSshKey: Path
    var userData: Path
    var metaData: Path
    var networkConfig: Path

    /** Every option unset and no password drawn yet. */
    constructor()
      ensures !disable && !rootPasswordGenerate && rootPasswordFile == ""
      ensures generatedRootPassword == "" && rootSshKey == "" && clouduserSshKey == ""
      ensures userData == "" && metaData == "" && networkConfig == ""
      ensures Valid()
    {
      disable := false;
      rootPasswordGenerate := false;
      rootPasswordFile := "";
      generatedRootPassword := "";
      rootSshKey := "";
      clouduserSshKey := "";
      userData := "";
      metaData := "";
      networkConfig := "";
    }

    /** The generated password is either not drawn yet or well formed. */
    predicate Valid()
      reads this
    {
      generatedRootPassword == "" || IsGeneratedPassword(generatedRootPassword)
    }

    /** `_generate_password`: draw 16 characters from the alphabet, once. */
    method GeneratePassword() returns (pw: string)
      modifies this`generatedRootPassword
      ensures pw == generatedRootPassword
      ensures Memoised(old(generatedRootPassword), generatedRootPassword)
      ensures old(Valid()) ==> Valid()
    {
      if generatedRootPassword == "" {
        assert Alphabet[0] in Alphabet;
        for n := 0 to PasswordLength
          invariant |generatedRootPassword| == n
          invariant forall i :: 0 <= i < n ==> generatedRootPassword[i] in Alphabet
        {
          var c :| c in Alphabet;
          generatedRootPassword := generatedRootPassword + [c];
        }
      }
      pw := generatedRootPassword;
    }

    /** `get_password_if_generated`: the memoised password when generation
        is asked for, None otherwise. */
    method GetPasswordIfGenerated() returns (r: Option<string>)
      modifies this`generatedRootPassword
      ensures rootPasswordGenerate ==>
        r == Some(generatedRootPassword) && Memoised(old(generatedRootPassword), generatedRootPassword)
      ensures !rootPasswordGenerate ==> r == None && generatedRootPassword == old(generatedRootPassword)
      ensures old(Valid()) ==> Valid()
    {
      r := None;
      if rootPasswordGenerate {
        var pw := GeneratePassword();
        r := Some(pw);
      }
    }

    /** The root password `get_root_password` returns once the generated
        password is drawn: the password file wins over generation. */
    function RootPassword(fs: FileSystem): (r: Result<Option<string>, IoError>)
      reads this
      ensures r.Err? <==> rootPasswordFile != "" && rootPasswordFile !in fs
      ensures r.Ok? ==> (r.value.Some? <==> rootPasswordGenerate || rootPasswordFile != "")
    {
      if rootPasswordFile != "" then OptionalFirstLine(fs, rootPasswordFile)
      else if rootPasswordGenerate then Ok(Some(generatedRootPassword))
      else Ok(None)
    }

    /** `get_root_password`. */
    method GetRootPassword(fs: FileSystem) returns (r: Result<Option<string>, IoError>)
      modifies this`generatedRootPassword
      ensures r == RootPassword(fs)
      ensures if rootPasswordFile == "" && rootPasswordGenerate
              then Memoised(old(generatedRootPassword), generatedRootPassword)
              else generatedRootPassword == old(generatedRootPassword)
      ensures old(Valid()) ==> Valid()
    {
      if rootPasswordFile != "" {
        r := OptionalFirstLine(fs, rootPasswordFile);
        return;
      }
      var pw := GetPasswordIfGenerated();
      r := Ok(pw);
    }

    /** `get_root_ssh_key`: the first line of the key file, if one is set. */
    function RootSshKey(fs: FileSystem): (r: Result<Option<string>, IoError>)
      reads this
      ensures r.Err? <==> rootSshKey != "" && rootSshKey !in fs
      ensures r.Ok? ==> r.value == if rootSshKey == "" then None else Some(FirstLine(fs[rootSshKey]))
    {
      OptionalFirstLine(fs, rootSshKey)
    }

    /** `get_clouduser_ssh_key`: the first line of the key file, if one is set. */
    function ClouduserSshKey(fs: FileSystem): (r: Result<Option<string>, IoError>)
      reads this
      ensures r.Err? <==> clouduserSshKey != "" && clouduserSshKey !in fs
      ensures r.Ok? ==> r.value == if clouduserSshKey == "" then None else Some(FirstLine(fs[clouduserSshKey]))
    {
      OptionalFirstLine(fs, clouduserSshKey)
    }

    /** `_create_metadata_content`. */
    function MetadataContent(fs: FileSystem): (r: Result<string, IoError>)
      reads this
      ensures r.Err? <==> metaData != "" && metaData !in fs
      ensures r.Ok? ==> r.value == if metaData == "" then "" else fs[metaData]
    {
      OptionalContent(fs, metaData)
    }

    /** `_create_network_config_content`. */
    function NetworkConfigContent(fs: FileSystem): (r: Result<string, IoError>)
      reads this
      ensures r.Err? <==> networkConfig != "" && networkConfig !in fs
      ensures r.Ok? ==> r.value == if networkConfig == "" then "" else fs[networkConfig]
    {
      OptionalContent(fs, networkConfig)
    }

    /** The expire marker: True whenever generation is asked for, even with
        a password file; False for a password file alone. */
    function ExpireMarker(): (e: Option<bool>)
      reads this
      ensures e.Some? <==> rootPasswordGenerate || rootPasswordFile != ""
      ensures e == Some(true) <==> rootPasswordGenerate
    {
      if rootPasswordGenerate then Some(true)
      else if rootPasswordFile != "" then Some(false)
      else None
    }

    /** The lines of the synthesised user-data; the password, the root key
        and the user key are read in this order and the first failure wins. */
    function SynthesizedLines(fs: FileSystem): (r: Result<seq<string>, IoError>)
      reads this
      ensures r.Err? <==>
        (rootPasswordFile != "" && rootPasswordFile !in fs)
        || (rootSshKey != "" && rootSshKey !in fs)
        || (clouduserSshKey != "" && clouduserSshKey !in fs)
      ensures r.Ok? ==> r.value != [] && r.value[0] == Header
    {
      var rootpass :- RootPassword(fs);
      var rootKey :- RootSshKey(fs);
      var userKey :- ClouduserSshKey(fs);
      Ok(Lines(rootpass, ExpireMarker(), rootKey, userKey, disable))
    }

    /** The user-data `_create_userdata_content` returns: the user's file
        verbatim when one is given, the synthesised document otherwise. */
    function UserDataContent(fs: FileSystem): (r: Result<string, IoError>)
      reads this
      ensures r.Err? <==> if userData != "" then userData !in fs else SynthesizedLines(fs).Err?
      ensures r.Ok? && userData != "" ==> r.value == fs[userData]
      ensures r.Ok? && userData == "" ==> r.value != [] && r.value[|r.value| - 1] == '\n'
    {
      if userData != "" then ReadFile(fs, userData)
      else
        var ls :- SynthesizedLines(fs);
        Ok(JoinLines(ls))
    }

    /** `_create_userdata_content`. `logged` is what goes to the debug log:
        the scrubbed copy of a synthesised document, nothing otherwise. */
    method CreateUserdataContent(fs: FileSystem) returns (r: Result<string, IoError>, logged: Option<string>)
      modifies this`generatedRootPassword
      ensures r == UserDataContent(fs)
      ensures logged == if userData == "" && r.Ok? then Some(Scrub(r.value)) else None
      ensures if userData == "" && rootPasswordFile == "" && rootPasswordGenerate
              then Memoised(old(generatedRootPassword), generatedRootPassword)
              else generatedRootPassword == old(generatedRootPassword)
      ensures old(Valid()) ==> Valid()
    {
      logged := None;
      if userData != "" {
        r := ReadFile(fs, userData);
        return;
      }
      var rootpass: Option<string> := None;
      if rootPasswordGenerate || rootPasswordFile != "" {
        var p := GetRootPassword(fs);
        if p.Err? {
          r := Err(p.error);
          return;
        }
        rootpass := p.value;
      }
      var rootKey := RootSshKey(fs);
      if rootKey.Err? {
        r := Err(rootKey.error);
        return;
      }
      var userKey := ClouduserSshKey(fs);
      if userKey.Err? {
        r := Err(userKey.error);
        return;
      }
      var content := JoinLines(Lines(rootpass, ExpireMarker(), rootKey.value, userKey.value, disable));
      logged := Some(Scrub(content));
      r := Ok(content);
    }

    /** The payloads `create_files` writes: meta-data, user-data and
        network-config are built in this order and the first failure wins. */
    function ArtifactData(fs: FileSystem): (r: Result<seq<Payload>, IoError>)
      reads this
      ensures r.Err? <==>
        MetadataContent(fs).Err? || UserDataContent(fs).Err? || NetworkConfigContent(fs).Err?
      ensures r.Ok? ==> 2 <= |r.value| <= 3 && r.value[0].role == MetaData && r.value[1].role == UserData
    {
      var meta :- MetadataContent(fs);
      var user :- UserDataContent(fs);
      var net :- NetworkConfigContent(fs);
      Ok(Payloads(meta, user, net))
    }

    /** The first half of `create_files`: the meta-data, user-data and
        network-config contents, read in this order; the first failure wins. */
    method CreatePayloads(fs: FileSystem) returns (r: Result<seq<Payload>, IoError>)
      modifies this`generatedRootPassword
      ensures r == ArtifactData(fs)
      ensures if MetadataContent(fs).Ok? && userData == "" && rootPasswordFile == "" && rootPasswordGenerate
              then Memoised(old(generatedRootPassword), generatedRootPassword)
              else generatedRootPassword == old(generatedRootPassword)
      ensures old(Valid()) ==> Valid()
    {
      var meta := MetadataContent(fs);
      if meta.Err? {
        return Err(meta.error);
      }
      var user, logged := CreateUserdataContent(fs);
      if user.Err? {
        return Err(user.error);
      }
      var net := NetworkConfigContent(fs);
      if net.Err? {
        return Err(net.error);
      }
      r := Ok(Payloads(meta.value, user.value, net.value));
    }

    /** `create_files`: a failure to read an option file propagates and
        writes nothing; a failure to create or write a temporary file is
        swallowed, the files created so far are unlinked, and their pairs
        are still returned. */
    method CreateFiles(scratchdir: Path, fs: FileSystem, fault: nat -> Fault)
      returns (r: Result<seq<FilePair>, IoError>, fs': FileSystem)
      modifies this`generatedRootPassword
      ensures r.Err? <==> ArtifactData(fs).Err?
      ensures r.Err? ==> r.error == ArtifactData(fs).error && fs' == fs
      ensures r.Ok? ==>
        var data := ArtifactData(fs).value;
        && (FirstFault(|data|, fault) == |data| ==> Committed(scratchdir, data, fs, r.value, fs'))
        && (FirstFault(|data|, fault) < |data| ==> RolledBack(scratchdir, data, fault, fs, r.value, fs'))
      ensures if MetadataContent(fs).Ok? && userData == "" && rootPasswordFile == "" && rootPasswordGenerate
              then Memoised(old(generatedRootPassword), generatedRootPassword)
              else generatedRootPassword == old(generatedRootPassword)
      ensures old(Valid()) ==> Valid()
    {
      var data := CreatePayloads(fs);
      if data.Err? {
        r, fs' := Err(data.error), fs;
        return;
      }
      var pairs;
      pairs, fs' := WriteArtifacts(scratchdir, data.value, fs, fault);
      r := Ok(pairs);
    }

    // -------------------------------------------------------------------
    // Properties of the options object

    /** The password file takes precedence over generation; the generated
        password is used only when no file is given. */
    lemma PasswordSource(fs: FileSystem)
      ensures rootPasswordFile != "" && rootPasswordFile in fs ==>
        RootPassword(fs) == Ok(Some(FirstLine(fs[rootPasswordFile])))
      ensures rootPasswordFile == "" ==>
        RootPassword(fs) == if rootPasswordGenerate then Ok(Some(generatedRootPassword)) else Ok(None)
    {
    }

    /** The synthesised document fails exactly when one of the files it
        reads is missing, and then with the first missing one. */
    lemma SynthesisErrors(fs: FileSystem)
      ensures SynthesizedLines(fs).Err? <==>
        (rootPasswordFile != "" && rootPasswordFile !in fs)
        || (rootSshKey != "" && rootSshKey !in fs)
        || (clouduserSshKey != "" && clouduserSshKey !in fs)
      ensures SynthesizedLines(fs).Err? ==>
        SynthesizedLines(fs).error ==
          if rootPasswordFile != "" && rootPasswordFile !in fs then NotFound(rootPasswordFile)
          else if rootSshKey != "" && rootSshKey !in fs then NotFound(rootSshKey)
          else NotFound(clouduserSshKey)
    {
    }

    /** The document opens with the header, its stanzas come in the fixed
        order, and each is present exactly when its option is set. */
    lemma DocumentStanzas(fs: FileSystem)
      requires SynthesizedLines(fs).Ok?
      ensures var ls := SynthesizedLines(fs).value;
        && ls[0] == Header && Ordered(ls)
        && (ChpasswdHead in ls <==> rootPasswordGenerate || rootPasswordFile != "")
        && (ExpireTrue in ls <==> rootPasswordGenerate)
        && (ExpireFalse in ls <==> !rootPasswordGenerate && rootPasswordFile != "")
        && (UsersHead in ls <==> rootSshKey != "")
        && (AuthorizedKeysHead in ls <==> clouduserSshKey != "")
        && (RuncmdHead in ls <==> disable)
    {
      var rootpass, rootKey, userKey := RootPassword(fs).value, RootSshKey(fs).value, ClouduserSshKey(fs).value;
      LinesOrdered(rootpass, ExpireMarker(), rootKey, userKey, disable);
      LinesPresence(rootpass, ExpireMarker(), rootKey, userKey, disable);
    }

    /** The resolved password and keys appear in the document on their lines. */
    lemma DocumentSecrets(fs: FileSystem)
      requires SynthesizedLines(fs).Ok?
      ensures var ls := SynthesizedLines(fs).value;
        && (rootPasswordFile != "" ==> "    root:" + FirstLine(fs[rootPasswordFile]) in ls)
        && (rootPasswordFile == "" && rootPasswordGenerate ==> "    root:" + generatedRootPassword in ls)
        && (rootSshKey != "" ==> "      - " + FirstLine(fs[rootSshKey]) in ls)
        && (clouduserSshKey != "" ==> "  - " + FirstLine(fs[clouduserSshKey]) in ls)
    {
      var rootpass, rootKey, userKey := RootPassword(fs).value, RootSshKey(fs).value, ClouduserSshKey(fs).value;
      LinesPresence(rootpass, ExpireMarker(), rootKey, userKey, disable);
    }

    /** With both password options set, the password comes from the file
        and yet the document says `expire: True`. */
    lemma BothPasswordOptions(fs: FileSystem)
      requires rootPasswordGenerate && rootPasswordFile != ""
      requires SynthesizedLines(fs).Ok?
      ensures var ls := SynthesizedLines(fs).value;
        "    root:" + FirstLine(fs[rootPasswordFile]) in ls && ExpireTrue in ls && ExpireFalse !in ls
    {
      DocumentStanzas(fs);
      DocumentSecrets(fs);
    }

    /** A user-data file is passed through verbatim: no other option has
        any effect on the user-data. */
    lemma UserDataPassthrough(other: CloudInitData, fs: FileSystem)
      requires userData != "" && other.userData == userData
      ensures UserDataContent(fs).Ok? <==> userData in fs
      ensures UserDataContent(fs).Ok? ==> UserDataContent(fs).value == fs[userData]
      ensures other.UserDataContent(fs) == UserDataContent(fs)
    {
    }

    /** Without a user-data file the user-data is the synthesised document:
        it starts with "#cloud-config", ends with a newline and splits back
        into exactly the document's lines. */
    lemma SynthesizedUserData(fs: FileSystem)
      requires Valid() && userData == "" && SynthesizedLines(fs).Ok?
      ensures UserDataContent(fs).Ok?
      ensures var text, ls := UserDataContent(fs).value, SynthesizedLines(fs).value;
        && SplitLines(text) == ls
        && text[|text| - 1] == '\n'
        && text[..|Header| + 1] == Header + "\n"
    {
      var rootpass, rootKey, userKey := RootPassword(fs).value, RootSshKey(fs).value, ClouduserSshKey(fs).value;
      ResolvedSecretsAreLines(fs);
      var ls := Lines(rootpass, ExpireMarker(), rootKey, userKey, disable);
      LinesHaveNoNewline(rootpass, ExpireMarker(), rootKey, userKey, disable);
      DocumentText(ls);
    }

    /** The SSH keys read from their files hold no "root:". */
    predicate KeysWithoutTag(fs: FileSystem)
      reads this
    {
      && (rootSshKey != "" && rootSshKey in fs ==> NoTag(FirstLine(fs[rootSshKey])))
      && (clouduserSshKey != "" && clouduserSshKey in fs ==> NoTag(FirstLine(fs[clouduserSshKey])))
    }

    /** The log copy is the document with the mask in the password line and
        every other line as it was (when the keys hold no "root:"). */
    lemma LoggedCopy(fs: FileSystem)
      requires Valid() && userData == "" && SynthesizedLines(fs).Ok? && KeysWithoutTag(fs)
      ensures UserDataContent(fs).Ok?
      ensures Scrub(UserDataContent(fs).value)
           == JoinLines(Lines(Masked(RootPassword(fs).value), ExpireMarker(),
                              RootSshKey(fs).value, ClouduserSshKey(fs).value, disable))
    {
      var rootpass, rootKey, userKey := RootPassword(fs).value, RootSshKey(fs).value, ClouduserSshKey(fs).value;
      ResolvedSecretsAreLines(fs);
      ScrubbedDocument(rootpass, ExpireMarker(), rootKey, userKey, disable);
    }

    /** The password and keys the document holds are single lines. */
    lemma ResolvedSecretsAreLines(fs: FileSystem)
      requires Valid() && SynthesizedLines(fs).Ok?
      ensures RootPassword(fs).Ok? && RootSshKey(fs).Ok? && ClouduserSshKey(fs).Ok?
      ensures SynthesizedLines(fs).value
           == Lines(RootPassword(fs).value, ExpireMarker(), RootSshKey(fs).value, ClouduserSshKey(fs).value, disable)
      ensures RootPassword(fs).value.Some? ==> '\n' !in RootPassword(fs).value.value
      ensures RootSshKey(fs).value.Some? ==> '\n' !in RootSshKey(fs).value.value
      ensures ClouduserSshKey(fs).value.Some? ==> '\n' !in ClouduserSshKey(fs).value.value
    {
      if generatedRootPassword != "" {
        GeneratedPasswordIsLine(generatedRootPassword);
      }
    }

    /** Reading the options fails exactly when a file they name is missing;
        otherwise the network-config payload is there exactly when its
        content is not empty. */
    lemma ArtifactDataShape(fs: FileSystem)
      ensures ArtifactData(fs).Err? <==>
        MetadataContent(fs).Err? || UserDataContent(fs).Err? || NetworkConfigContent(fs).Err?
      ensures ArtifactData(fs).Ok? ==>
        var data := ArtifactData(fs).value;
        && data[0] == Payload(MetadataContent(fs).value, MetaData)
        && data[1] == Payload(UserDataContent(fs).value, UserData)
        && (|data| == 3 <==> networkConfig != "" && fs[networkConfig] != "")
    {
    }
  }

  /** The text of a document of single lines under the header. */
  lemma DocumentText(ls: seq<string>)
    requires SingleLines(ls) && ls != [] && ls[0] == Header
    ensures var text := JoinLines(ls);
      && SplitLines(text) == ls
      && text[|text| - 1] == '\n'
      && text[..|Header| + 1] == Header + "\n"
  {
    SplitJoin(ls);
    assert ls == [Header] + ls[1..];
    JoinAppend([Header], ls[1..]);
  }

  /** Two calls of `get_root_password` in a row agree. */
  method RootPasswordTwice(c: CloudInitData, fs: FileSystem) returns (first: Result<Option<string>, IoError>,
                                                                     second: Result<Option<string>, IoError>)
    modifies c`generatedRootPassword
    ensures first == second
  {
    first := c.GetRootPassword(fs);
    var drawn := c.generatedRootPassword;
    second := c.GetRootPassword(fs);
    if c.rootPasswordFile == "" && c.rootPasswordGenerate {
      MemoisedStable(old(c.generatedRootPassword), drawn, c.generatedRootPassword);
    }
  }
}
