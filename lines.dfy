/**
 * Text as a sequence of lines. A document whose every line ends in a newline
 * is `Unlines` of its lines, and `SplitLines` recovers them.
 */
module Lines {

  /** The text made of the lines `ls`, each followed by a newline. */
  function Unlines(ls: seq<string>): string
  {
    if ls == [] then "" else ls[0] + "\n" + Unlines(ls[1..])
  }

  /** No line of `ls` contains a line break. */
  predicate AllSingleLine(ls: seq<string>)
  {
    forall k :: 0 <= k < |ls| ==> '\n' !in ls[k]
  }

  lemma SingleLineAppend(a: seq<string>, b: seq<string>)
    requires AllSingleLine(a) && AllSingleLine(b)
    ensures AllSingleLine(a + b)
  {
    forall k | 0 <= k < |a + b|
      ensures '\n' !in (a + b)[k]
    {
      if k >= |a| {
        assert (a + b)[k] == b[k - |a|];
      }
    }
  }

  /** Position of the first newline of `s`. */
  function FirstNewline(s: string): (k: nat)
    requires '\n' in s
    ensures k < |s| && s[k] == '\n' && '\n' !in s[..k]
  {
    if s[0] == '\n' then 0
    else
      var k := FirstNewline(s[1..]);
      assert s[..k + 1] == [s[0]] + s[1..][..k];
      k + 1
  }

  /**
   * The lines of `s`: the pieces that newlines end. A last piece that no
   * newline ends is a line too; a final newline does not start an empty line.
   */
  function SplitLines(s: string): (ls: seq<string>)
    ensures AllSingleLine(ls)
    decreases |s|
  {
    if '\n' !in s then (if s == [] then [] else [s])
    else
      var k := FirstNewline(s);
      [s[..k]] + SplitLines(s[k + 1..])
  }

  /** Joining lines distributes over concatenating line lists. */
  lemma {:induction false} UnlinesAppend(a: seq<string>, b: seq<string>)
    ensures Unlines(a + b) == Unlines(a) + Unlines(b)
  {
    if a == [] {
      assert a + b == b;
    } else {
      assert (a + b)[1..] == a[1..] + b;
      UnlinesAppend(a[1..], b);
    }
  }

  /** In `a + "\n" + b`, with no newline in `a`, the first newline follows `a`. */
  lemma FirstNewlineAfter(a: string, b: string)
    requires '\n' !in a
    ensures '\n' in a + "\n" + b
    ensures FirstNewline(a + "\n" + b) == |a|
  {
    var s := a + "\n" + b;
    assert s[|a|] == '\n';
  }

  /** Splitting the text of single-line lines gives those lines back. */
  lemma {:induction false} SplitUnlines(ls: seq<string>)
    requires AllSingleLine(ls)
    ensures SplitLines(Unlines(ls)) == ls
  {
    if ls != [] {
      var rest := Unlines(ls[1..]);
      var s := ls[0] + "\n" + rest;
      assert Unlines(ls) == s;
      FirstNewlineAfter(ls[0], rest);
      assert s[..|ls[0]|] == ls[0];
      assert s[|ls[0]| + 1..] == rest;
      assert SplitLines(s) == [ls[0]] + SplitLines(rest);
      SplitUnlines(ls[1..]);
    }
  }

  /** Joining a first line and the rest. */
  lemma UnlinesCons(line: string, ls: seq<string>)
    ensures Unlines([line] + ls) == line + "\n" + Unlines(ls)
  {
    assert ([line] + ls)[1..] == ls;
  }

  /** Joining the lines of a newline-terminated text gives the text back. */
  lemma {:induction false} UnlinesSplit(s: string)
    requires s == [] || s[|s| - 1] == '\n'
    ensures Unlines(SplitLines(s)) == s
    decreases |s|
  {
    if '\n' in s {
      var k := FirstNewline(s);
      var line, rest := s[..k], s[k + 1..];
      assert s == line + "\n" + rest;
      assert rest == [] || rest[|rest| - 1] == '\n';
      UnlinesSplit(rest);
      assert SplitLines(s) == [line] + SplitLines(rest);
      UnlinesCons(line, SplitLines(rest));
    }
  }
}
