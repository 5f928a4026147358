/** The log-only scrubbing of synthesised user-data:
    `re.sub(r"root:(.*)", "root:[SCRUBBLED]", content)`. Since '.' does not
    match a newline, every "root:" together with the rest of its line is
    replaced by the placeholder; the search goes on at the newline. */
module Scrubbing {
  import opened Files

  const Tag: string := "root:"
  /** What replaces a secret, spelled as the source spells it. */
  const Mask: string := "[SCRUBBLED]"
  /** The replacement text "root:[SCRUBBLED]". */
  const Placeholder: string := Tag + Mask

  /** `s` begins with "root:", compared character by character. */
  predicate StartsWithTag(s: string)
  {
    |s| >= |Tag| && s[0] == 'r' && s[1] == 'o' && s[2] == 'o' && s[3] == 't' && s[4] == ':'
  }

  /** The character-wise test is the prefix test. */
  lemma TagPrefix(s: string)
    ensures StartsWithTag(s) <==> |s| >= |Tag| && s[..|Tag|] == Tag
  {
    if |s| >= |Tag| {
      var h := s[..|Tag|];
      assert h[0] == s[0] && h[1] == s[1] && h[2] == s[2] && h[3] == s[3] && h[4] == s[4];
      assert StartsWithTag(s) ==> h == ['r', 'o', 'o', 't', ':'];
    }
  }

  /** "root:" occurs nowhere in `s`. */
  predicate NoTag(s: string)
  {
    forall i :: 0 <= i < |s| ==> !StartsWithTag(s[i..])
  }

  /** `re.sub(r"root:(.*)", "root:[SCRUBBLED]", s)`: each "root:" and the
      rest of its line become the placeholder. Empty text stays empty, and
      a single line stays a single line. */
  function Scrub(s: string): (r: string)
    ensures r == [] <==> s == []
    ensures '\n' !in s ==> '\n' !in r
    decreases |s|
  {
    if s == [] then
      []
    else if StartsWithTag(s) then
      Placeholder + Scrub(s[LineEnd(s)..])
    else
      [s[0]] + Scrub(s[1..])
  }

  /** A tagged text scrubs to the placeholder, which begins with the tag. */
  lemma TaggedKeepsHead(t: string, k: nat)
    requires StartsWithTag(t) && k <= |Tag|
    ensures k <= |Scrub(t)| && forall j :: 0 <= j < k ==> Scrub(t)[j] == t[j]
  {
    var r := Scrub(t[LineEnd(t)..]);
    assert Scrub(t) == Tag + (Mask + r);
    forall j | 0 <= j < k ensures Scrub(t)[j] == t[j] {
      assert Scrub(t)[j] == Tag[j];
    }
  }

  /** An untagged text keeps its first character and scrubs the rest. */
  lemma UntaggedKeepsHead(t: string, k: nat)
    requires t != [] && !StartsWithTag(t) && 0 < k <= |t|
    requires k - 1 <= |Scrub(t[1..])|
    requires forall j :: 0 <= j < k - 1 ==> Scrub(t[1..])[j] == t[j + 1]
    ensures k <= |Scrub(t)| && forall j :: 0 <= j < k ==> Scrub(t)[j] == t[j]
  {
    var r := Scrub(t[1..]);
    assert Scrub(t) == [t[0]] + r;
    forall j | 0 <= j < k ensures Scrub(t)[j] == t[j] {
      if j > 0 {
        assert Scrub(t)[j] == r[j - 1];
      }
    }
  }

  /** The first five characters survive scrubbing. */
  lemma {:induction false} ScrubKeepsHead(t: string, k: nat)
    requires k <= |Tag| && k <= |t|
    ensures k <= |Scrub(t)| && Scrub(t)[..k] == t[..k]
    ensures forall j :: 0 <= j < k ==> Scrub(t)[j] == t[j]
    decreases |t|
  {
    if t == [] || k == 0 {
    } else if StartsWithTag(t) {
      TaggedKeepsHead(t, k);
    } else {
      ScrubKeepsHead(t[1..], k - 1);
      UntaggedKeepsHead(t, k);
    }
    assert Scrub(t)[..k] == t[..k];
  }

  /** A text without "root:" is left unchanged. */
  lemma {:induction false} ScrubNoTag(s: string)
    requires NoTag(s)
    ensures Scrub(s) == s
    decreases |s|
  {
    if s != [] {
      assert s[0..] == s;
      assert forall i :: 0 <= i < |s[1..]| ==> s[1..][i..] == s[i + 1..];
      ScrubNoTag(s[1..]);
    }
  }

  /** The placeholder is a single line. */
  lemma PlaceholderHasNoNewline()
    ensures '\n' !in Placeholder
  {
    assert '\n' !in Tag && '\n' !in Mask;
  }

  /** The placeholder ends at a line end: what follows it is scrubbed on
      its own. */
  lemma PlaceholderThen(y: string)
    requires y == [] || y[0] == '\n'
    ensures Scrub(Placeholder + y) == Placeholder + Scrub(y)
  {
    var s := Placeholder + y;
    assert StartsWithTag(s) by {
      assert s[..|Tag|] == Tag;
      TagPrefix(s);
    }
    assert s[LineEnd(s)..] == y by {
      PlaceholderHasNoNewline();
      LineEndAfter(Placeholder, y);
    }
  }

  /** Scrubbing an already scrubbed text changes nothing. */
  lemma {:induction false} ScrubIdempotent(s: string)
    ensures Scrub(Scrub(s)) == Scrub(s)
    decreases |s|
  {
    if s == [] {
    } else if StartsWithTag(s) {
      var u := s[LineEnd(s)..];
      if u != [] {
        ScrubKeepsHead(u, 1);
      }
      PlaceholderThen(Scrub(u));
      ScrubIdempotent(u);
    } else {
      var t := s[1..];
      var x := [s[0]] + Scrub(t);
      if |t| >= 4 {
        ScrubKeepsHead(t, 4);
        assert x[1] == s[1] && x[2] == s[2] && x[3] == s[3] && x[4] == s[4];
      } else {
        assert NoTag(t);
        ScrubNoTag(t);
      }
      assert !StartsWithTag(x);
      assert x[1..] == Scrub(t);
      ScrubIdempotent(t);
    }
  }

  /** A newline is never part of a tag. */
  lemma ScrubNewline(y: string)
    ensures Scrub("\n" + y) == "\n" + Scrub(y)
  {
    var s := "\n" + y;
    assert s[1..] == y;
  }

  /** A line that starts with "root:" scrubs to the placeholder, and the
      text after its newline is scrubbed on its own. */
  lemma ScrubTaggedHead(l: string, y: string)
    requires '\n' !in l && StartsWithTag(l + "\n" + y)
    ensures Scrub(l + "\n" + y) == Scrub(l) + "\n" + Scrub(y)
  {
    var s := l + "\n" + y;
    assert StartsWithTag(l) by {
      assert s[|l|] == '\n';
    }
    assert Scrub(s) == Placeholder + Scrub("\n" + y) by {
      assert s == l + ("\n" + y);
      LineEndAfter(l, "\n" + y);
      assert s[LineEnd(s)..] == "\n" + y;
    }
    assert Scrub(l) == Placeholder by {
      LineEndAfter(l, []);
      assert l + [] == l;
      assert l[LineEnd(l)..] == [];
    }
    ScrubNewline(y);
  }

  /** Lines are scrubbed one by one: a "root:" never reaches past its '\n'. */
  lemma {:induction false} ScrubLine(l: string, y: string)
    requires '\n' !in l
    ensures Scrub(l + "\n" + y) == Scrub(l) + "\n" + Scrub(y)
    decreases |l|
  {
    var s := l + "\n" + y;
    if l == [] {
      assert s == "\n" + y;
      ScrubNewline(y);
    } else if StartsWithTag(s) {
      ScrubTaggedHead(l, y);
    } else {
      assert !StartsWithTag(l);
      assert s[1..] == l[1..] + "\n" + y;
      ScrubLine(l[1..], y);
    }
  }

  /** "root:" and a single line after it become the placeholder. */
  lemma ScrubTagLine(b: string)
    requires '\n' !in b
    ensures Scrub(Tag + b) == Placeholder
  {
    var s := Tag + b;
    assert s[LineEnd(s)..] == [] by {
      assert '\n' !in Tag;
      assert '\n' !in s;
      LineEndAfter(s, []);
      assert s + [] == s;
    }
  }

  /** A text without a tag, followed by a tag, does not start with one. */
  lemma NoTagBeforeTag(a: string, t: string)
    requires NoTag(a) && a != [] && StartsWithTag(t)
    ensures !StartsWithTag(a + t)
  {
    if |a| >= |Tag| {
      assert a[0..] == a;
    }
  }

  /** Dropping the first character keeps a text free of tags. */
  lemma NoTagTail(a: string)
    requires NoTag(a) && a != []
    ensures NoTag(a[1..])
  {
    forall i | 0 <= i < |a[1..]| ensures !StartsWithTag(a[1..][i..]) {
      assert a[1..][i..] == a[i + 1..];
    }
  }

  /** A "root:" after a text that holds none, on the same line, masks the
      rest of that line; the text before it is kept. */
  lemma {:induction false} ScrubTagAfter(a: string, b: string)
    requires NoTag(a) && '\n' !in b
    ensures Scrub(a + Tag + b) == a + Placeholder
    decreases |a|
  {
    var s := a + Tag + b;
    if a == [] {
      assert s == Tag + b;
      ScrubTagLine(b);
    } else {
      assert s == a + (Tag + b);
      NoTagBeforeTag(a, Tag + b);
      NoTagTail(a);
      assert s[1..] == a[1..] + Tag + b;
      ScrubTagAfter(a[1..], b);
    }
  }

  /** Every "root:" ends with a ':'; a text without one has no tag. */
  lemma NoColonNoTag(s: string)
    requires ':' !in s
    ensures NoTag(s)
  {
    forall i | 0 <= i < |s| ensures !StartsWithTag(s[i..]) {
      if i + 4 < |s| {
        assert s[i..][4] == s[i + 4];
      }
    }
  }

  /** A text with a single ':' that does not follow "root" has no tag. */
  lemma OneColonNoTag(a: string, b: string)
    requires ':' !in a && ':' !in b
    requires |a| < 4 || a[|a| - 4..] != "root"
    ensures NoTag(a + ":" + b)
  {
    var s := a + ":" + b;
    forall i | 0 <= i < |s| ensures !StartsWithTag(s[i..]) {
      if i + 4 < |s| {
        var t := s[i..];
        assert t[4] == s[i + 4];
        if i + 4 < |a| {
          assert s[i + 4] == a[i + 4];
        } else if i + 4 > |a| {
          assert s[i + 4] == b[i + 3 - |a|];
        } else {
          var w := a[|a| - 4..];
          assert t[0] == w[0] && t[1] == w[1] && t[2] == w[2] && t[3] == w[3];
          assert StartsWithTag(t) ==> w == ['r', 'o', 'o', 't'];
        }
      }
    }
  }

  /** A prefix without 'r' cannot start a tag. */
  lemma PrefixNoTag(a: string, b: string)
    requires 'r' !in a && NoTag(b)
    ensures NoTag(a + b)
  {
    var s := a + b;
    forall i | 0 <= i < |s| ensures !StartsWithTag(s[i..]) {
      if i < |a| {
        assert s[i..][0] == s[i] == a[i];
      } else {
        assert s[i..] == b[i - |a|..];
      }
    }
  }
}
