/** The synthesised `#cloud-config` user-data document. The source builds
    it by appending "...\n" pieces one stanza after another; the model keeps
    the same pieces as a sequence of lines and joins them with '\n'. */
module CloudConfig {
  import opened Wrappers
  import opened Files
  import opened Scrubbing

  const Header: string := "#cloud-config"
  const ChpasswdHead: string := "chpasswd:"
  const ExpireTrue: string := "  expire: True"
  const ExpireFalse: string := "  expire: False"
  const UsersHead: string := "users:"
  const AuthorizedKeysHead: string := "ssh_authorized_keys:"
  const RuncmdHead: string := "runcmd:"
  /** The guest command that disables later cloud-init runs; the source
      writes it as two adjacent literals. */
  const DisableCommand: string := "- echo \"Disabled by virt-install\" > " + "/etc/cloud/cloud-init.disabled"

  /** `chpasswd` with the root password, when one was resolved. */
  function PasswordStanza(rootpass: Option<string>): (s: seq<string>)
    ensures s != [] <==> rootpass.Some?
    ensures rootpass.Some? ==> |s| == 3 && s[0] == ChpasswdHead && s[2] == "    root:" + rootpass.value
  {
    match rootpass
    case None => []
    case Some(p) => [ChpasswdHead, "  list: |", "    root:" + p]
  }

  /** The expire marker: True, False or absent. */
  function ExpireStanza(expire: Option<bool>): (s: seq<string>)
    ensures |s| <= 1
    ensures ExpireTrue in s <==> expire == Some(true)
    ensures ExpireFalse in s <==> expire == Some(false)
  {
    match expire
    case None => []
    case Some(e) => [if e then ExpireTrue else ExpireFalse]
  }

  /** The `users:` block: the default user plus root with its key. */
  function RootKeyStanza(rootKey: Option<string>): (s: seq<string>)
    ensures s != [] <==> rootKey.Some?
    ensures rootKey.Some? ==> |s| == 5 && s[0] == UsersHead && s[4] == "      - " + rootKey.value
  {
    match rootKey
    case None => []
    case Some(k) => [UsersHead, "  - default", "  - name: root", "    ssh_authorized_keys:", "      - " + k]
  }

  /** The top-level key of the default (non-root) user. */
  function ClouduserKeyStanza(userKey: Option<string>): (s: seq<string>)
    ensures s != [] <==> userKey.Some?
    ensures userKey.Some? ==> |s| == 2 && s[0] == AuthorizedKeysHead && s[1] == "  - " + userKey.value
  {
    match userKey
    case None => []
    case Some(k) => [AuthorizedKeysHead, "  - " + k]
  }

  /** `runcmd` with the command that switches cloud-init off. */
  function DisableStanza(disable: bool): (s: seq<string>)
    ensures s != [] <==> disable
    ensures disable ==> |s| == 2 && s[0] == RuncmdHead && s[1] == DisableCommand
  {
    if disable then [RuncmdHead, DisableCommand] else []
  }

  /** The lines of the synthesised document, stanza by stanza. */
  function Lines(rootpass: Option<string>, expire: Option<bool>, rootKey: Option<string>,
                 userKey: Option<string>, disable: bool): (ls: seq<string>)
    ensures ls != [] && ls[0] == Header
    ensures |ls| == 1 + (if rootpass.Some? then 3 else 0) + (if expire.Some? then 1 else 0)
                  + (if rootKey.Some? then 5 else 0) + (if userKey.Some? then 2 else 0)
                  + (if disable then 2 else 0)
  {
    [Header] + PasswordStanza(rootpass) + ExpireStanza(expire) + RootKeyStanza(rootKey)
      + ClouduserKeyStanza(userKey) + DisableStanza(disable)
  }

  /** Every line followed by '\n', as the source appends them. */
  function JoinLines(ls: seq<string>): (s: string)
    ensures s == [] <==> ls == []
    ensures ls != [] ==> s[|s| - 1] == '\n'
    ensures |s| >= |ls|
  {
    if ls == [] then "" else ls[0] + "\n" + JoinLines(ls[1..])
  }

  /** The lines of a text: split at every '\n'; a last line without '\n' is kept. */
  function SplitLines(s: string): seq<string>
    decreases |s|
  {
    if s == [] then
      []
    else
      var k := LineEnd(s);
      if k == |s| then [s] else [s[..k]] + SplitLines(s[k + 1..])
  }

  /** A line and its '\n' split off the front of a text. */
  lemma SplitLine(line: string, rest: string)
    requires '\n' !in line
    ensures SplitLines(line + "\n" + rest) == [line] + SplitLines(rest)
  {
    var s := line + ("\n" + rest);
    assert line + "\n" + rest == s;
    LineEndAfter(line, "\n" + rest);
    assert LineEnd(s) == |line|;
    assert s[..|line|] == line;
    assert s[|line| + 1..] == rest;
  }

  /** Joining lines that hold no '\n' can be undone by splitting. */
  lemma {:induction false} SplitJoin(ls: seq<string>)
    requires forall i :: 0 <= i < |ls| ==> '\n' !in ls[i]
    ensures SplitLines(JoinLines(ls)) == ls
  {
    if ls != [] {
      SplitLine(ls[0], JoinLines(ls[1..]));
      SplitJoin(ls[1..]);
      assert ls == [ls[0]] + ls[1..];
    }
  }

  lemma {:induction false} JoinAppend(a: seq<string>, b: seq<string>)
    ensures JoinLines(a + b) == JoinLines(a) + JoinLines(b)
  {
    if a == [] {
      assert a + b == b;
    } else {
      assert (a + b)[0] == a[0];
      assert (a + b)[1..] == a[1..] + b;
      JoinAppend(a[1..], b);
    }
  }

  // ---------------------------------------------------------------------
  // Stanza order

  /** The rank of a line that opens a stanza (the header counts as one);
      -1 for every other line. */
  function HeadRank(line: string): int
  {
    if line == Header then 0
    else if line == ChpasswdHead then 1
    else if line == ExpireTrue || line == ExpireFalse then 2
    else if line == UsersHead then 3
    else if line == AuthorizedKeysHead then 4
    else if line == RuncmdHead then 5
    else -1
  }

  /** Stanza heads occur in increasing rank, so each at most once. */
  predicate Ordered(ls: seq<string>)
  {
    forall i, j :: 0 <= i < j < |ls| && HeadRank(ls[i]) >= 0 && HeadRank(ls[j]) >= 0 ==>
      HeadRank(ls[i]) < HeadRank(ls[j])
  }

  /** A stanza of rank r: its first line has rank r, the others are no heads. */
  predicate StanzaOf(s: seq<string>, r: int)
  {
    (|s| > 0 ==> HeadRank(s[0]) == r) && forall i :: 1 <= i < |s| ==> HeadRank(s[i]) == -1
  }

  /** Indented lines and list items are never stanza heads. */
  lemma NotHead(line: string)
    requires |line| >= 3
    requires (line[0] == ' ' && line[2] != 'e') || line[0] == '-'
    ensures HeadRank(line) == -1
  {
    assert Header[0] == '#' && ChpasswdHead[0] == 'c' && ExpireTrue[2] == 'e' && ExpireFalse[2] == 'e';
    assert UsersHead[0] == 'u' && AuthorizedKeysHead[0] == 's' && RuncmdHead[0] == 'r';
  }

  lemma PasswordStanzaRank(rootpass: Option<string>)
    ensures StanzaOf(PasswordStanza(rootpass), 1)
  {
    if rootpass.Some? {
      NotHead("  list: |");
      NotHead("    root:" + rootpass.value);
    }
  }

  lemma RootKeyStanzaRank(rootKey: Option<string>)
    ensures StanzaOf(RootKeyStanza(rootKey), 3)
  {
    if rootKey.Some? {
      NotHead("  - default");
      NotHead("  - name: root");
      NotHead("    ssh_authorized_keys:");
      NotHead("      - " + rootKey.value);
    }
  }

  lemma ClouduserKeyStanzaRank(userKey: Option<string>)
    ensures StanzaOf(ClouduserKeyStanza(userKey), 4)
  {
    if userKey.Some? {
      NotHead("  - " + userKey.value);
    }
  }

  lemma DisableStanzaRank(disable: bool)
    ensures StanzaOf(DisableStanza(disable), 5)
  {
    if disable {
      NotHead(DisableCommand);
    }
  }

  /** Each stanza opens with the head of its rank; its other lines are no heads. */
  lemma StanzasHaveRanks(rootpass: Option<string>, expire: Option<bool>, rootKey: Option<string>,
                         userKey: Option<string>, disable: bool)
    ensures StanzaOf(PasswordStanza(rootpass), 1) && StanzaOf(ExpireStanza(expire), 2)
    ensures StanzaOf(RootKeyStanza(rootKey), 3) && StanzaOf(ClouduserKeyStanza(userKey), 4)
    ensures StanzaOf(DisableStanza(disable), 5)
  {
    PasswordStanzaRank(rootpass);
    RootKeyStanzaRank(rootKey);
    ClouduserKeyStanzaRank(userKey);
    DisableStanzaRank(disable);
  }

  /** Appending a stanza of a rank above all ranks so far keeps the order. */
  lemma AppendStanza(ls: seq<string>, s: seq<string>, r: int)
    requires Ordered(ls) && StanzaOf(s, r)
    requires forall i :: 0 <= i < |ls| ==> HeadRank(ls[i]) < r
    ensures Ordered(ls + s)
    ensures forall i :: 0 <= i < |ls + s| ==> HeadRank((ls + s)[i]) <= r
  {
  }

  /** A line of rank r other than -1 can only come from the stanza of rank r. */
  lemma NotInOtherStanza(line: string, s: seq<string>, r: int)
    requires StanzaOf(s, r) && HeadRank(line) != r && HeadRank(line) != -1
    ensures line !in s
  {
  }

  /** The stanza of a given rank. */
  function StanzaAt(r: int, rootpass: Option<string>, expire: Option<bool>, rootKey: Option<string>,
                    userKey: Option<string>, disable: bool): seq<string>
  {
    if r == 0 then [Header]
    else if r == 1 then PasswordStanza(rootpass)
    else if r == 2 then ExpireStanza(expire)
    else if r == 3 then RootKeyStanza(rootKey)
    else if r == 4 then ClouduserKeyStanza(userKey)
    else DisableStanza(disable)
  }

  /** A stanza head occurs in the document exactly when it occurs in the
      stanza of its own rank. */
  lemma HeadInItsStanza(line: string, rootpass: Option<string>, expire: Option<bool>,
                        rootKey: Option<string>, userKey: Option<string>, disable: bool)
    requires HeadRank(line) >= 0
    ensures line in Lines(rootpass, expire, rootKey, userKey, disable)
        <==> line in StanzaAt(HeadRank(line), rootpass, expire, rootKey, userKey, disable)
  {
    var r := HeadRank(line);
    var h, p, e, rk, uk, d := [Header], PasswordStanza(rootpass), ExpireStanza(expire),
      RootKeyStanza(rootKey), ClouduserKeyStanza(userKey), DisableStanza(disable);
    StanzasHaveRanks(rootpass, expire, rootKey, userKey, disable);
    if r != 0 { NotInOtherStanza(line, h, 0); }
    if r != 1 { NotInOtherStanza(line, p, 1); }
    if r != 2 { NotInOtherStanza(line, e, 2); }
    if r != 3 { NotInOtherStanza(line, rk, 3); }
    if r != 4 { NotInOtherStanza(line, uk, 4); }
    if r != 5 { NotInOtherStanza(line, d, 5); }
    assert Lines(rootpass, expire, rootKey, userKey, disable) == h + p + e + rk + uk + d;
  }

  /** The synthesised document starts with the header and its stanzas come
      in the fixed order chpasswd, expire, users, ssh_authorized_keys,
      runcmd, each at most once. */
  lemma LinesOrdered(rootpass: Option<string>, expire: Option<bool>, rootKey: Option<string>,
                     userKey: Option<string>, disable: bool)
    ensures var ls := Lines(rootpass, expire, rootKey, userKey, disable);
      ls[0] == Header && Ordered(ls)
  {
    var h, p, e, rk, uk, d := [Header], PasswordStanza(rootpass), ExpireStanza(expire),
      RootKeyStanza(rootKey), ClouduserKeyStanza(userKey), DisableStanza(disable);
    StanzasHaveRanks(rootpass, expire, rootKey, userKey, disable);
    AppendStanza([], h, 0);
    assert [] + h == h;
    AppendStanza(h, p, 1);
    AppendStanza(h + p, e, 2);
    AppendStanza(h + p + e, rk, 3);
    AppendStanza(h + p + e + rk, uk, 4);
    AppendStanza(h + p + e + rk + uk, d, 5);
  }

  /** Each stanza is present exactly when its input is, and the resolved
      secrets appear on their own lines. */
  lemma LinesPresence(rootpass: Option<string>, expire: Option<bool>, rootKey: Option<string>,
                      userKey: Option<string>, disable: bool)
    ensures var ls := Lines(rootpass, expire, rootKey, userKey, disable);
      && (ChpasswdHead in ls <==> rootpass.Some?)
      && (ExpireTrue in ls <==> expire == Some(true))
      && (ExpireFalse in ls <==> expire == Some(false))
      && (UsersHead in ls <==> rootKey.Some?)
      && (AuthorizedKeysHead in ls <==> userKey.Some?)
      && (RuncmdHead in ls <==> disable)
      && (rootpass.Some? ==> "    root:" + rootpass.value in ls)
      && (rootKey.Some? ==> "      - " + rootKey.value in ls)
      && (userKey.Some? ==> "  - " + userKey.value in ls)
  {
    PasswordPresence(rootpass, expire, rootKey, userKey, disable);
    RootKeyPresence(rootpass, expire, rootKey, userKey, disable);
    UserKeyPresence(rootpass, expire, rootKey, userKey, disable);
    DisablePresence(rootpass, expire, rootKey, userKey, disable);
  }

  lemma PasswordPresence(rootpass: Option<string>, expire: Option<bool>, rootKey: Option<string>,
                         userKey: Option<string>, disable: bool)
    ensures var ls := Lines(rootpass, expire, rootKey, userKey, disable);
      && (ChpasswdHead in ls <==> rootpass.Some?)
      && (ExpireTrue in ls <==> expire == Some(true))
      && (ExpireFalse in ls <==> expire == Some(false))
      && (rootpass.Some? ==> "    root:" + rootpass.value in ls)
  {
    HeadInItsStanza(ChpasswdHead, rootpass, expire, rootKey, userKey, disable);
    HeadInItsStanza(ExpireTrue, rootpass, expire, rootKey, userKey, disable);
    HeadInItsStanza(ExpireFalse, rootpass, expire, rootKey, userKey, disable);
    assert ExpireTrue != ExpireFalse;
  }

  lemma RootKeyPresence(rootpass: Option<string>, expire: Option<bool>, rootKey: Option<string>,
                        userKey: Option<string>, disable: bool)
    ensures var ls := Lines(rootpass, expire, rootKey, userKey, disable);
      && (UsersHead in ls <==> rootKey.Some?)
      && (rootKey.Some? ==> "      - " + rootKey.value in ls)
  {
    HeadInItsStanza(UsersHead, rootpass, expire, rootKey, userKey, disable);
    if rootKey.Some? {
      RootKeyLineInLines(rootpass, expire, rootKey.value, userKey, disable);
    }
  }

  lemma RootKeyLineInLines(rootpass: Option<string>, expire: Option<bool>, key: string,
                           userKey: Option<string>, disable: bool)
    ensures "      - " + key in Lines(rootpass, expire, Some(key), userKey, disable)
  {
    var rk := RootKeyStanza(Some(key));
    assert rk[4] == "      - " + key;
    InMiddle([Header] + PasswordStanza(rootpass) + ExpireStanza(expire), rk,
             ClouduserKeyStanza(userKey) + DisableStanza(disable), 4);
  }

  /** A line of the middle part is a line of the whole. */
  lemma InMiddle(a: seq<string>, m: seq<string>, b: seq<string>, k: nat)
    requires k < |m|
    ensures m[k] in a + m + b
  {
    assert (a + m + b)[|a| + k] == m[k];
  }

  lemma UserKeyPresence(rootpass: Option<string>, expire: Option<bool>, rootKey: Option<string>,
                        userKey: Option<string>, disable: bool)
    ensures var ls := Lines(rootpass, expire, rootKey, userKey, disable);
      && (AuthorizedKeysHead in ls <==> userKey.Some?)
      && (userKey.Some? ==> "  - " + userKey.value in ls)
  {
    HeadInItsStanza(AuthorizedKeysHead, rootpass, expire, rootKey, userKey, disable);
    if userKey.Some? {
      UserKeyLineInLines(rootpass, expire, rootKey, userKey.value, disable);
    }
  }

  lemma UserKeyLineInLines(rootpass: Option<string>, expire: Option<bool>, rootKey: Option<string>,
                           key: string, disable: bool)
    ensures "  - " + key in Lines(rootpass, expire, rootKey, Some(key), disable)
  {
    var uk := ClouduserKeyStanza(Some(key));
    assert uk[1] == "  - " + key;
    InMiddle([Header] + PasswordStanza(rootpass) + ExpireStanza(expire) + RootKeyStanza(rootKey), uk,
             DisableStanza(disable), 1);
  }

  lemma DisablePresence(rootpass: Option<string>, expire: Option<bool>, rootKey: Option<string>,
                        userKey: Option<string>, disable: bool)
    ensures RuncmdHead in Lines(rootpass, expire, rootKey, userKey, disable) <==> disable
  {
    HeadInItsStanza(RuncmdHead, rootpass, expire, rootKey, userKey, disable);
  }

  // ---------------------------------------------------------------------
  // The scrubbed log copy

  function ScrubEach(ls: seq<string>): (r: seq<string>)
    ensures |r| == |ls|
  {
    seq(|ls|, i requires 0 <= i < |ls| => Scrub(ls[i]))
  }

  /** Scrubbing a joined document scrubs each of its lines. */
  lemma {:induction false} ScrubJoin(ls: seq<string>)
    requires SingleLines(ls)
    ensures Scrub(JoinLines(ls)) == JoinLines(ScrubEach(ls))
  {
    if ls != [] {
      var rest := JoinLines(ls[1..]);
      assert SingleLines(ls[1..]) by {
        forall i | 0 <= i < |ls[1..]| ensures '\n' !in ls[1..][i] {
          assert ls[1..][i] == ls[i + 1];
        }
      }
      ScrubJoin(ls[1..]);
      calc {
        Scrub(JoinLines(ls));
        Scrub(ls[0] + "\n" + rest);
        { ScrubLine(ls[0], rest); }
        Scrub(ls[0]) + "\n" + JoinLines(ScrubEach(ls[1..]));
        { assert ScrubEach(ls)[1..] == ScrubEach(ls[1..]); }
        JoinLines(ScrubEach(ls));
      }
    }
  }

  /** The fixed lines of the document hold no "root:". */
  lemma HeadsHaveNoTag()
    ensures NoTag(Header) && NoTag(ChpasswdHead) && NoTag(UsersHead)
    ensures NoTag(AuthorizedKeysHead) && NoTag(RuncmdHead)
  {
    NoColonNoTag(Header);
    assert ChpasswdHead == "chpasswd" + ":" + "";
    OneColonNoTag("chpasswd", "");
    assert UsersHead == "users" + ":" + "";
    OneColonNoTag("users", "");
    assert AuthorizedKeysHead == "ssh_authorized_keys" + ":" + "";
    OneColonNoTag("ssh_authorized_keys", "");
    assert RuncmdHead == "runcmd" + ":" + "";
    OneColonNoTag("runcmd", "");
  }

  lemma ExpireLinesHaveNoTag()
    ensures NoTag(ExpireTrue) && NoTag(ExpireFalse)
  {
    assert ExpireTrue == "  expire" + ":" + " True";
    OneColonNoTag("  expire", " True");
    assert ExpireFalse == "  expire" + ":" + " False";
    OneColonNoTag("  expire", " False");
  }

  lemma BodyLinesHaveNoTag()
    ensures NoTag("  list: |") && NoTag("  - default") && NoTag("  - name: root")
    ensures NoTag("    ssh_authorized_keys:")
  {
    assert "  list: |" == "  list" + ":" + " |";
    OneColonNoTag("  list", " |");
    NoColonNoTag("  - default");
    assert "  - name: root" == "  - name" + ":" + " root";
    OneColonNoTag("  - name", " root");
    assert "    ssh_authorized_keys:" == "    ssh_authorized_keys" + ":" + "";
    OneColonNoTag("    ssh_authorized_keys", "");
  }

  lemma DisableCommandHasNoTag()
    ensures NoTag(DisableCommand)
  {
    assert ':' !in "- echo \"Disabled by virt-install\" > ";
    assert ':' !in "/etc/cloud/cloud-init.disabled";
    NoColonNoTag(DisableCommand);
  }

  /** Lines without "root:" are left as they are. */
  lemma ScrubEachNoTag(ls: seq<string>)
    requires forall i :: 0 <= i < |ls| ==> NoTag(ls[i])
    ensures ScrubEach(ls) == ls
  {
    forall i | 0 <= i < |ls| ensures ScrubEach(ls)[i] == ls[i] {
      ScrubNoTag(ls[i]);
    }
  }

  lemma ScrubEachAppend(a: seq<string>, b: seq<string>)
    ensures ScrubEach(a + b) == ScrubEach(a) + ScrubEach(b)
  {
    assert forall i :: 0 <= i < |a + b| ==> ScrubEach(a + b)[i] == (ScrubEach(a) + ScrubEach(b))[i];
  }

  /** The password entry is an indent followed by the tag. */
  lemma PasswordEntryPieces()
    ensures "    root:" == "    " + Tag
    ensures "    " + Placeholder == "    root:" + Mask
    ensures ':' !in "    "
  {
  }

  /** The password line of the log copy shows the mask instead of the password. */
  lemma ScrubPasswordLine(pw: string)
    requires '\n' !in pw
    ensures Scrub("    root:" + pw) == "    root:" + Mask
  {
    PasswordEntryPieces();
    NoColonNoTag("    ");
    ScrubTagAfter("    ", pw);
    assert "    root:" + pw == "    " + Tag + pw;
  }

  /** The password as the log shows it: the mask, if there is one. */
  function Masked(rootpass: Option<string>): Option<string>
  {
    if rootpass.Some? then Some(Mask) else None
  }

  lemma ScrubPasswordStanza(rootpass: Option<string>)
    requires rootpass.Some? ==> '\n' !in rootpass.value
    ensures ScrubEach(PasswordStanza(rootpass)) == PasswordStanza(Masked(rootpass))
  {
    if rootpass.Some? {
      ScrubSomePasswordStanza(rootpass.value);
    }
  }

  /** The two fixed lines of the password stanza hold no "root:". */
  lemma PasswordHeadKept()
    ensures ScrubEach([ChpasswdHead, "  list: |"]) == [ChpasswdHead, "  list: |"]
  {
    HeadsHaveNoTag();
    BodyLinesHaveNoTag();
    ScrubEachNoTag([ChpasswdHead, "  list: |"]);
  }

  lemma ScrubSomePasswordStanza(pw: string)
    requires '\n' !in pw
    ensures ScrubEach(PasswordStanza(Some(pw))) == PasswordStanza(Some(Mask))
  {
    var fixed := [ChpasswdHead, "  list: |"];
    calc {
      ScrubEach(PasswordStanza(Some(pw)));
      { assert PasswordStanza(Some(pw)) == fixed + ["    root:" + pw]; }
      ScrubEach(fixed + ["    root:" + pw]);
      { ScrubEachAppend(fixed, ["    root:" + pw]); }
      ScrubEach(fixed) + ScrubEach(["    root:" + pw]);
      { PasswordHeadKept(); ScrubPasswordLine(pw); }
      fixed + ["    root:" + Mask];
    }
  }

  /** Every line is a single line: it holds no '\n'. */
  predicate SingleLines(ls: seq<string>)
  {
    forall i :: 0 <= i < |ls| ==> '\n' !in ls[i]
  }

  lemma PasswordStanzaSingleLines(rootpass: Option<string>)
    requires rootpass.Some? ==> '\n' !in rootpass.value
    ensures SingleLines(PasswordStanza(rootpass))
  {
    if rootpass.Some? {
      assert '\n' !in ChpasswdHead && '\n' !in "  list: |";
    }
  }

  lemma RootKeyStanzaSingleLines(rootKey: Option<string>)
    requires rootKey.Some? ==> '\n' !in rootKey.value
    ensures SingleLines(RootKeyStanza(rootKey))
  {
    if rootKey.Some? {
      assert '\n' !in UsersHead && '\n' !in "  - default" && '\n' !in "  - name: root";
      assert '\n' !in "    ssh_authorized_keys:";
    }
  }

  lemma FixedStanzasSingleLines(expire: Option<bool>, userKey: Option<string>)
    requires userKey.Some? ==> '\n' !in userKey.value
    ensures SingleLines([Header]) && SingleLines(ExpireStanza(expire))
    ensures SingleLines(ClouduserKeyStanza(userKey))
  {
    assert '\n' !in Header;
    assert '\n' !in ExpireTrue && '\n' !in ExpireFalse;
    assert '\n' !in AuthorizedKeysHead;
  }

  lemma DisableStanzaSingleLines(disable: bool)
    ensures SingleLines(DisableStanza(disable))
  {
    if disable {
      assert '\n' !in RuncmdHead;
      assert '\n' !in "- echo \"Disabled by virt-install\" > ";
      assert '\n' !in "/etc/cloud/cloud-init.disabled";
    }
  }

  /** No line of the document holds a '\n' when the secrets hold none. */
  lemma LinesHaveNoNewline(rootpass: Option<string>, expire: Option<bool>, rootKey: Option<string>,
                           userKey: Option<string>, disable: bool)
    requires rootpass.Some? ==> '\n' !in rootpass.value
    requires rootKey.Some? ==> '\n' !in rootKey.value
    requires userKey.Some? ==> '\n' !in userKey.value
    ensures SingleLines(Lines(rootpass, expire, rootKey, userKey, disable))
  {
    var h, p, e, rk, uk, d := [Header], PasswordStanza(rootpass), ExpireStanza(expire),
      RootKeyStanza(rootKey), ClouduserKeyStanza(userKey), DisableStanza(disable);
    PasswordStanzaSingleLines(rootpass);
    RootKeyStanzaSingleLines(rootKey);
    FixedStanzasSingleLines(expire, userKey);
    DisableStanzaSingleLines(disable);
    assert SingleLines(h + p);
    assert SingleLines(h + p + e);
    assert SingleLines(h + p + e + rk);
    assert SingleLines(h + p + e + rk + uk);
  }

  lemma ScrubKeepsExpireStanza(expire: Option<bool>)
    ensures ScrubEach(ExpireStanza(expire)) == ExpireStanza(expire)
  {
    ExpireLinesHaveNoTag();
    ScrubEachNoTag(ExpireStanza(expire));
  }

  lemma ScrubKeepsRootKeyStanza(rootKey: Option<string>)
    requires rootKey.Some? ==> NoTag(rootKey.value)
    ensures ScrubEach(RootKeyStanza(rootKey)) == RootKeyStanza(rootKey)
  {
    if rootKey.Some? {
      HeadsHaveNoTag();
      BodyLinesHaveNoTag();
      PrefixNoTag("      - ", rootKey.value);
      ScrubEachNoTag(RootKeyStanza(rootKey));
    }
  }

  lemma ScrubKeepsClouduserKeyStanza(userKey: Option<string>)
    requires userKey.Some? ==> NoTag(userKey.value)
    ensures ScrubEach(ClouduserKeyStanza(userKey)) == ClouduserKeyStanza(userKey)
  {
    if userKey.Some? {
      HeadsHaveNoTag();
      PrefixNoTag("  - ", userKey.value);
      ScrubEachNoTag(ClouduserKeyStanza(userKey));
    }
  }

  lemma ScrubKeepsHeaderAndDisableStanza(disable: bool)
    ensures ScrubEach([Header]) == [Header]
    ensures ScrubEach(DisableStanza(disable)) == DisableStanza(disable)
  {
    HeadsHaveNoTag();
    DisableCommandHasNoTag();
    ScrubEachNoTag([Header]);
    ScrubEachNoTag(DisableStanza(disable));
  }

  /** The log copy of a synthesised document is the same document built
      with the mask in place of the root password: the password is hidden
      and nothing else changes, provided the SSH keys hold no "root:". */
  lemma ScrubbedDocument(rootpass: Option<string>, expire: Option<bool>, rootKey: Option<string>,
                         userKey: Option<string>, disable: bool)
    requires rootpass.Some? ==> '\n' !in rootpass.value
    requires rootKey.Some? ==> '\n' !in rootKey.value && NoTag(rootKey.value)
    requires userKey.Some? ==> '\n' !in userKey.value && NoTag(userKey.value)
    ensures Scrub(JoinLines(Lines(rootpass, expire, rootKey, userKey, disable)))
         == JoinLines(Lines(Masked(rootpass), expire, rootKey, userKey, disable))
  {
    var h, p, e, rk, uk, d := [Header], PasswordStanza(rootpass), ExpireStanza(expire),
      RootKeyStanza(rootKey), ClouduserKeyStanza(userKey), DisableStanza(disable);
    LinesHaveNoNewline(rootpass, expire, rootKey, userKey, disable);
    ScrubJoin(h + p + e + rk + uk + d);
    ScrubKeepsHeaderAndDisableStanza(disable);
    ScrubPasswordStanza(rootpass);
    ScrubKeepsExpireStanza(expire);
    ScrubKeepsRootKeyStanza(rootKey);
    ScrubKeepsClouduserKeyStanza(userKey);
    ScrubEachAppend(h, p);
    ScrubEachAppend(h + p, e);
    ScrubEachAppend(h + p + e, rk);
    ScrubEachAppend(h + p + e + rk, uk);
    ScrubEachAppend(h + p + e + rk + uk, d);
  }
}
