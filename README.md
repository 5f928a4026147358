# cloud-init seed data for virt-install

virt-install can hand a new guest a NoCloud seed for cloud-init: three small
files named `meta-data`, `user-data` and (optionally) `network-config` that
the guest reads on its first boot. The options come from the command line and
are collected in `CloudInitData`:

- whether root gets a generated password, or the path of a password file;
- the paths of SSH key files for root and for the default cloud user;
- whether cloud-init is disabled after the first boot;
- passthrough files for meta-data, user-data and network-config.

From these options the class builds three things:

- The meta-data and network-config text. Each is the named file verbatim, or
  empty when no file is named.
- The user-data text. It is the named file verbatim. Failing that, it is a
  synthesised `#cloud-config` document whose stanzas come in a fixed order:
  `chpasswd`, then the expire marker, `users:` with the root key, the
  top-level `ssh_authorized_keys:`, and `runcmd:`.
- A copy of the synthesised document for the debug log. In that copy every
  `root:` up to the end of its line reads `root:[SCRUBBLED]`.

`create_files` writes the payloads to fresh temporary files in a scratch
directory. When a create or a write fails, it unlinks the files it made in
that call.

The model is organised as follows:

- `Files` (files.dfy) is the file system: a map from path to text, with
  reading a whole file and `readline().rstrip("\n\r")`.
- `Scrubbing` (scrub.dfy) is the log substitution
  `re.sub(r"root:(.*)", "root:[SCRUBBLED]", ...)` as a recursive function.
- `CloudConfig` (cloudconfig.dfy) is the synthesised document, kept as its
  sequence of lines.
- `Artifacts` (artifacts.dfy) is the temporary-file loop of `create_files`
  and its rollback, as imperative code over the file map.
- `CloudInit` (cloudinit.dfy) is the `CloudInitData` class. Its fields are
  the options and the memoised password. Its methods draw the password, build
  the user-data and write the files. Its functions state what those methods
  compute.

Conventions used throughout the model:

- An option that Python leaves as `None` is `""` (a path) or `false` (a flag).
  The source only tests these values for truthiness.
- A file that cannot be opened is `Err(NotFound(path))`.
- `random.choice` is a nondeterministic pick from the 62 letters and digits.
- The temporary file name is a nondeterministic pick among the
  `<dir>/virtinst-<token>-<role>` names that do not yet exist.
- Which file operation fails is an oracle parameter of `create_files`. It is asked by the position of the payload in the list.

Where the natural reading of the class and its code differ, the model follows
the code:

- With both `root_password_generate` and `root_password_file` set, the
  password comes from the file, but the document still says `expire: True`.
  The expire test checks `root_password_generate` first.
- The log placeholder is spelled `root:[SCRUBBLED]`.
- A failed write in `create_files` is not re-raised. The created files are
  unlinked, and the call still returns the pairs, which now name deleted
  files.

## Model

| member | source | states |
|---|---|---|
| Files.ReadFile | virtinst/install/cloudinit.py:59 | `open(path).read()` (also at lines 65 and 108) yields the whole file, and fails with NotFound exactly when the file is missing |
| Files.ReadLine | virtinst/install/cloudinit.py:36 | `readline()` returns a prefix of the text with no '\n' before its last character; it ends in '\n' exactly when the text holds one, and is the whole text otherwise |
| Files.ReadFirstLine | virtinst/install/cloudinit.py:34-36 | `_get_password` fails with NotFound exactly when the file is missing; otherwise it yields the first line of the file, holding no '\n' and not ending in '\r' |
| Files.FirstLine | virtinst/install/cloudinit.py:36 | the line read is a prefix of the file up to its first '\n'; it holds no '\n'; it does not end in '\r'; only '\r' characters were cut between it and the newline |
| Files.FirstLineOfLine | virtinst/install/cloudinit.py:36 | a one-line secret that does not end in '\r', written with a "\n" or "\r\n" ending (or none at the end of the file), reads back unchanged |
| Files.RStripLineEnds | virtinst/install/cloudinit.py:36 | `rstrip("\n\r")` keeps a prefix, cuts only '\n' and '\r', and leaves neither at the end |
| Scrubbing.Scrub | virtinst/install/cloudinit.py:97 | the substitution turns the empty text into the empty text and only it, and turns a text without a newline into a text without a newline |
| Scrubbing.TagPrefix | virtinst/install/cloudinit.py:97 | the tag test compares exactly the five characters "root:" at the start of the text |
| Scrubbing.ScrubNoTag | virtinst/install/cloudinit.py:97 | a text with no "root:" in it is left unchanged by the log substitution |
| Scrubbing.ScrubIdempotent | virtinst/install/cloudinit.py:97 | scrubbing an already scrubbed text changes nothing |
| Scrubbing.ScrubLine | virtinst/install/cloudinit.py:97 | the substitution never reaches past a newline: a text is scrubbed line by line |
| Scrubbing.ScrubKeepsHead | virtinst/install/cloudinit.py:97 | the first five characters of a text survive scrubbing |
| Scrubbing.ScrubTagAfter | virtinst/install/cloudinit.py:97 | a "root:" after text that holds no "root:", on the same line, keeps that text and turns the rest of the line into `root:[SCRUBBLED]` |
| CloudConfig.PasswordStanza | virtinst/install/cloudinit.py:69-73 | the chpasswd stanza is there exactly when a password was resolved; it then has three lines, opens with `chpasswd:` and ends with `    root:<password>` |
| CloudConfig.ExpireStanza | virtinst/install/cloudinit.py:75-78 | the expire stanza has at most one line; it is `  expire: True` exactly when the marker is true and `  expire: False` exactly when it is false |
| CloudConfig.RootKeyStanza | virtinst/install/cloudinit.py:80-86 | the users stanza is there exactly when a root key was read; it then has five lines, opens with `users:` and ends with `      - <key>` |
| CloudConfig.ClouduserKeyStanza | virtinst/install/cloudinit.py:88-91 | the top-level key stanza is there exactly when a user key was read; it then has two lines, `ssh_authorized_keys:` and `  - <key>` |
| CloudConfig.DisableStanza | virtinst/install/cloudinit.py:93-95 | the runcmd stanza is there exactly when cloud-init is disabled; it then is `runcmd:` followed by the command that writes `/etc/cloud/cloud-init.disabled` |
| CloudConfig.Lines | virtinst/install/cloudinit.py:67-95 | the document opens with `#cloud-config`, and its length is one plus 3, 1, 5, 2 and 2 lines for each stanza that is present |
| CloudConfig.StanzasHaveRanks | virtinst/install/cloudinit.py:69-95 | each stanza opens with its own head, and none of its other lines is a stanza head |
| CloudConfig.JoinLines | virtinst/install/cloudinit.py:67-95 | appending "line\n" pieces gives the empty text only for no lines; otherwise the text ends in a newline and has at least one character per line |
| CloudConfig.SplitJoin | virtinst/install/cloudinit.py:67-95 | the document text built by appending "line\n" pieces splits back into exactly those lines when none holds a newline |
| CloudConfig.LinesOrdered | virtinst/install/cloudinit.py:67-95 | the synthesised document starts with `#cloud-config`; the heads of chpasswd, expire, users, ssh_authorized_keys and runcmd occur in that order, each at most once |
| CloudConfig.LinesPresence | virtinst/install/cloudinit.py:69-95 | each stanza head is present exactly when its input is; the password, root key and user key appear on their own lines |
| CloudConfig.ScrubJoin | virtinst/install/cloudinit.py:97 | scrubbing the document text scrubs each of its lines |
| CloudConfig.ScrubPasswordLine | virtinst/install/cloudinit.py:73-97 | the log copy of the password line is `    root:[SCRUBBLED]` for any one-line password |
| CloudConfig.ScrubbedDocument | virtinst/install/cloudinit.py:67-101 | the log copy is the same document with the mask in place of the password; every other line is unchanged when the keys hold no "root:" |
| Artifacts.Payloads | virtinst/install/cloudinit.py:115-118 | the payload list is meta-data, then user-data, then network-config only when its content is not empty |
| Artifacts.TempPath | virtinst/install/cloudinit.py:123-126 | a name built from the directory, `virtinst-`, a token without '/' and `-<role>` is a temporary name for that role in that directory |
| Artifacts.TempPathInDir | virtinst/install/cloudinit.py:123-126 | a temporary name for a role lies directly in the scratch directory: it is the directory, a '/', and a file name without '/' that ends with the role's name |
| Artifacts.FirstFault | virtinst/install/cloudinit.py:121-131 | the index of the first file operation that fails, the oracle being asked by payload position, or the number of payloads when none fails |
| Artifacts.Committed | virtinst/install/cloudinit.py:120-130 | after a call without failure the files added are exactly the paths of the returned pairs, and no file was removed |
| Artifacts.RolledBack | virtinst/install/cloudinit.py:131-135 | after a failed call none of the returned pairs names an existing file |
| Artifacts.FreshTempPathExists | virtinst/install/cloudinit.py:123-126 | a temporary name for any role in any directory that no file has yet always exists |
| Artifacts.CreateTemp | virtinst/install/cloudinit.py:123-126 | `NamedTemporaryFile` gives a path in the scratch directory with prefix `virtinst-` and suffix `-<role>` that no existing file has |
| Artifacts.RemoveFiles | virtinst/install/cloudinit.py:132-133 | the cleanup loop removes exactly the paths of the pairs |
| Artifacts.WriteUntilFault | virtinst/install/cloudinit.py:120-130 | the loop stops at the first failure; it has created one fresh, distinct temporary file per payload before it, filled each with its payload, created the failing file when only its write failed, and touched no existing file |
| Artifacts.WriteArtifacts | virtinst/install/cloudinit.py:120-135 | without a failure, the returned pairs name one fresh file per payload, in order, holding its content, and nothing else changed; after a failure, the file system is as before and the pairs name the created (now removed) files |
| Artifacts.SuccessiveCallsDisjoint | virtinst/install/cloudinit.py:123-126 | two calls in a row on the same directory never hand out the same path, and a failing second call leaves the files of the first in place |
| CloudInit.AlphabetChars | virtinst/install/cloudinit.py:31 | `ascii_letters + digits` holds 62 characters, exactly the ASCII letters and digits |
| CloudInit.GeneratedPasswordIsLine | virtinst/install/cloudinit.py:27-32 | a generated password is not empty and holds no newline |
| CloudInit.MemoisedStable | virtinst/install/cloudinit.py:27-32 | once a password is drawn, every later call returns that same password |
| CloudInit.OptionalFirstLine | virtinst/install/cloudinit.py:47-53 | an unset option yields None; a set one yields the first line of its file, or NotFound when the file is missing |
| CloudInit.OptionalContent | virtinst/install/cloudinit.py:55-109 | an unset option yields the empty text; a set one yields the whole file, or NotFound when it is missing |
| CloudInit.CloudInitData.constructor | virtinst/install/cloudinit.py:16-25 | every option starts unset and no password has been drawn |
| CloudInit.CloudInitData.GeneratePassword | virtinst/install/cloudinit.py:27-32 | a password already drawn is returned unchanged; otherwise 16 characters from the alphabet are drawn, stored and returned; a well-formed memo stays well formed |
| CloudInit.CloudInitData.GetPasswordIfGenerated | virtinst/install/cloudinit.py:38-40 | with generation on, it returns the memoised password; otherwise it returns None and draws nothing |
| CloudInit.CloudInitData.RootPassword | virtinst/install/cloudinit.py:42-45 | the password lookup fails only when a named password file is missing; it yields a password exactly when generation or a password file is set |
| CloudInit.CloudInitData.GetRootPassword | virtinst/install/cloudinit.py:42-45 | `get_root_password` returns RootPassword; it draws a password only when no file is named and generation is on |
| CloudInit.CloudInitData.RootSshKey | virtinst/install/cloudinit.py:47-49 | the root key is None when unset; otherwise it is the first line of its file, or NotFound when the file is missing |
| CloudInit.CloudInitData.ClouduserSshKey | virtinst/install/cloudinit.py:51-53 | the default user's key is None when unset; otherwise it is the first line of its file, or NotFound when the file is missing |
| CloudInit.CloudInitData.MetadataContent | virtinst/install/cloudinit.py:55-60 | meta-data is empty when unset; otherwise it is the whole file, or NotFound when the file is missing |
| CloudInit.CloudInitData.NetworkConfigContent | virtinst/install/cloudinit.py:104-109 | network-config is empty when unset; otherwise it is the whole file, or NotFound when the file is missing |
| CloudInit.CloudInitData.ExpireMarker | virtinst/install/cloudinit.py:75-78 | the marker is present exactly when a password option is set, and is true exactly when generation is on, whether or not a file is named |
| CloudInit.CloudInitData.SynthesizedLines | virtinst/install/cloudinit.py:67-95 | synthesis fails exactly when a named password file or key file is missing; otherwise the lines open with `#cloud-config` |
| CloudInit.CloudInitData.UserDataContent | virtinst/install/cloudinit.py:62-102 | with a user-data file the user-data fails exactly when it is missing and is otherwise that file; without one it fails exactly when synthesis fails and is otherwise non-empty and ends in a newline |
| CloudInit.CloudInitData.ResolvedSecretsAreLines | virtinst/install/cloudinit.py:34-53 | the password and keys that go into the document are single lines |
| CloudInit.CloudInitData.CreateUserdataContent | virtinst/install/cloudinit.py:62-102 | returns the user-data unscrubbed. Only the logged copy is scrubbed, and a copy is logged only for a synthesised document. A password is drawn only when no user-data file and no password file are given and generation is on |
| CloudInit.CloudInitData.ArtifactData | virtinst/install/cloudinit.py:112-118 | building the payloads fails exactly when one of the three contents fails; otherwise there are two or three of them, meta-data first and user-data second |
| CloudInit.CloudInitData.CreatePayloads | virtinst/install/cloudinit.py:112-118 | the contents are read in the order meta-data, user-data, network-config and the first failure wins; a password is drawn only when user-data is synthesised with generation on |
| CloudInit.CloudInitData.CreateFiles | virtinst/install/cloudinit.py:111-135 | a missing option file aborts with its error before anything is written; otherwise the payloads are written all or nothing, and the pairs are returned even after a failed write |
| CloudInit.CloudInitData.PasswordSource | virtinst/install/cloudinit.py:42-45 | a password file wins over generation; the generated password is used only without a file; neither option gives None |
| CloudInit.CloudInitData.SynthesisErrors | virtinst/install/cloudinit.py:69-91 | synthesis fails exactly when the password file or a key file named is missing, and reports the first missing one in reading order |
| CloudInit.CloudInitData.DocumentStanzas | virtinst/install/cloudinit.py:67-95 | the document starts with the header and its stanzas are in order. chpasswd is there iff a password option is set; `expire: True` iff generation is set; `expire: False` iff only a file is set. Each key block and runcmd is there iff its option is set |
| CloudInit.CloudInitData.DocumentSecrets | virtinst/install/cloudinit.py:69-91 | the password line carries the file's first line when a file is named, else the generated password; each key line carries its file's first line |
| CloudInit.CloudInitData.BothPasswordOptions | virtinst/install/cloudinit.py:43-76 | with both password options set, the password line carries the file's password and the marker is `expire: True`, never `expire: False` |
| CloudInit.CloudInitData.UserDataPassthrough | virtinst/install/cloudinit.py:63-65 | with a user-data file, the user-data is that file verbatim, and no other option changes it |
| CloudInit.CloudInitData.SynthesizedUserData | virtinst/install/cloudinit.py:67-102 | without a user-data file, the user-data starts with "#cloud-config\n", ends with a newline and splits back into exactly the document's lines |
| CloudInit.CloudInitData.LoggedCopy | virtinst/install/cloudinit.py:97-101 | the logged copy is the document rebuilt with `[SCRUBBLED]` as the password; every other line is as returned, when the keys hold no "root:" |
| CloudInit.CloudInitData.ArtifactDataShape | virtinst/install/cloudinit.py:111-118 | building the payloads fails exactly when one of the three contents fails; otherwise meta-data comes first, then user-data, and network-config is third exactly when its file is named and not empty |
| CloudInit.RootPasswordTwice | virtinst/install/cloudinit.py:27-45 | two `get_root_password` calls in a row on the same object return the same result |

## Left out

- Logging and the `VIRTINST_TEST_SUITE_PRINT_CLOUDINIT` echo are not modelled as side effects. The scrubbed text is returned as `logged` instead.
- Real randomness is not modelled; any choice from the alphabet is allowed.
- The internals of `tempfile` are not modelled: the length and characters of its random token (the model only keeps it free of '/'), its retries on collision, and its `os.path.abspath`/`join` normalisation. Any unused name of the right shape is allowed.
- Files are text in a map. Encodings, universal-newline translation on read, permissions and partial writes are not modelled. A failing write leaves the new file empty.
- CloudInit.CloudInitData.CreateFiles: assumes `os.unlink` succeeds during cleanup. In the source an unlink failure would escape the `except` block.
- Python's `None` versus `""` for paths and the password is not distinguished. The source only tests truthiness, so both mean "unset". Options given non-boolean truthy values are modelled as `true`.
- CloudInit.CloudInitData.LoggedCopy: requires that the SSH keys hold no "root:". A key that did would be masked in the log too. Scrubbing.ScrubTagAfter states what such a key line becomes, but the lemma does not describe the whole log in that case.
- The GUI test `tests/uitests/createpool.py` is not part of this model. It drives the storage-pool wizard and has no behaviour of this class.
