/** The file system seen by the seed-data builder: a map from path to text.
    Reading a whole file (`open(p).read()`) and reading the first line of a
    secret file (`readline().rstrip("\n\r")`) are pure functions over it. */
module Files {
  import opened Wrappers

  type Path = string
  type FileSystem = map<Path, string>

  /** The only read failure modelled: the path does not name a file. */
  datatype IoError = NotFound(path: Path)

  /** `open(p).read()`: the whole content of the file, or an error. */
  function ReadFile(fs: FileSystem, p: Path): (r: Result<string, IoError>)
    ensures r.Ok? <==> p in fs
    ensures r.Ok? ==> r.value == fs[p]
    ensures r.Err? ==> r.error == NotFound(p)
  {
    if p in fs then Ok(fs[p]) else Err(NotFound(p))
  }

  /** Index of the first '\n' in `s`, or |s| when there is none. */
  function LineEnd(s: string): (k: nat)
    ensures k <= |s|
    ensures forall i :: 0 <= i < k ==> s[i] != '\n'
    ensures k < |s| ==> s[k] == '\n'
  {
    if s == [] || s[0] == '\n' then 0 else 1 + LineEnd(s[1..])
  }

  /** A '\n'-free prefix shifts the end of the first line by its length. */
  lemma {:induction false} LineEndAfter(a: string, b: string)
    requires '\n' !in a
    ensures LineEnd(a + b) == |a| + LineEnd(b)
  {
    if a != [] {
      assert (a + b)[0] == a[0];
      assert (a + b)[1..] == a[1..] + b;
      LineEndAfter(a[1..], b);
    } else {
      assert a + b == b;
    }
  }

  /** `readline()`: the text up to and including the first '\n'. */
  function ReadLine(text: string): (r: string)
    ensures |r| <= |text| && r == text[..|r|]
    ensures forall i :: 0 <= i < |r| - 1 ==> r[i] != '\n'
    ensures '\n' in text <==> r != [] && r[|r| - 1] == '\n'
    ensures '\n' !in text ==> r == text
  {
    var k := LineEnd(text);
    if k < |text| then text[..k + 1] else text
  }

  /** `rstrip("\n\r")`: drops every trailing '\n' and '\r'. */
  function RStripLineEnds(s: string): (r: string)
    ensures |r| <= |s| && r == s[..|r|]
    ensures r == [] || (r[|r| - 1] != '\n' && r[|r| - 1] != '\r')
    ensures forall i :: |r| <= i < |s| ==> s[i] == '\n' || s[i] == '\r'
  {
    if s != [] && (s[|s| - 1] == '\n' || s[|s| - 1] == '\r') then
      RStripLineEnds(s[..|s| - 1])
    else
      s
  }

  /** The first line of `text` with its line terminator and any '\r' before
      it removed: a prefix of the text that stops before the first '\n',
      where everything cut off before that '\n' is '\r'. */
  function FirstLine(text: string): (r: string)
    ensures |r| <= LineEnd(text) && r == text[..|r|]
    ensures '\n' !in r
    ensures r == [] || r[|r| - 1] != '\r'
    ensures forall i :: |r| <= i < LineEnd(text) ==> text[i] == '\r'
  {
    var line := ReadLine(text);
    var r := RStripLineEnds(line);
    assert forall i :: 0 <= i < |line| && i < LineEnd(text) ==> line[i] == text[i];
    r
  }

  /** A file whose first line is `line`, ended by "\n", "\r\n" or the end of
      the file, yields exactly `line`. */
  lemma FirstLineOfLine(line: string, eol: string, rest: string)
    requires '\n' !in line
    requires line == [] || line[|line| - 1] != '\r'
    requires eol == "\n" || eol == "\r\n" || (eol == "" && rest == "")
    ensures FirstLine(line + eol + rest) == line
  {
    var text := line + eol + rest;
    LineEndAfter(line, eol + rest);
    if eol == "\r\n" {
      assert LineEnd(eol + rest) == 1;
    }
    assert text[..|line|] == line;
  }

  /** `_get_password`: the first line of the file at `p`, stripped of its
      line terminator; a missing file is an error. */
  function ReadFirstLine(fs: FileSystem, p: Path): (r: Result<string, IoError>)
    ensures r.Ok? <==> p in fs
    ensures r.Ok? ==> r.value == FirstLine(fs[p]) && '\n' !in r.value
    ensures r.Err? ==> r.error == NotFound(p)
  {
    var text :- ReadFile(fs, p);
    Ok(FirstLine(text))
  }
}
