/**
 * What the record's mutators do to the generated Dockerfile. Appending a
 * dependency, a pre-run command or a copy pair inserts one line right after
 * the last line of its kind and changes no other line; the first one of its
 * kind opens its section where the section belongs (for copy pairs, in
 * place of the `COPY . .` default). The run command never reaches the text.
 *
 * The lemmas are stated on record values. They apply to the class's
 * mutators through their postconditions: `AddDependency`, `AddPreRunCommand`
 * and `AddCopyFile` leave `Value()` equal to the old value with only the
 * appended list replaced, which is the value `c.(dependencies := …)` and
 * the like that the lemmas below take.
 */
module Edits {
  import opened Builder
  import opened Lines
  import opened DocumentLines
  import opened Layout

  /**
   * Replacing the `r` lines of a middle part that start at `j` by `xs`
   * replaces the same lines of the whole, shifted by the length of the part
   * before it.
   */
  lemma Splice(pre: seq<string>, mid: seq<string>, post: seq<string>, j: nat, r: nat, xs: seq<string>, mid2: seq<string>)
    requires j + r <= |mid| && mid2 == mid[..j] + xs + mid[j + r..]
    ensures pre + mid2 + post == (pre + mid + post)[..|pre| + j] + xs + (pre + mid + post)[|pre| + j + r..]
  {
    var whole := pre + mid + post;
    assert whole[..|pre| + j] == pre + mid[..j];
    assert whole[|pre| + j + r..] == mid[j + r..] + post;
  }

  // Splicing inside one of the nine sections of the document, stated on
  // the sections left abstract: `doc` is the document before and `doc2` the
  // document after one section changed. Each one regroups the nine-way
  // concatenation around its section and applies `Splice`; they are stated
  // on abstract lists so that the proof about a concrete record does not
  // unfold the sections it leaves alone.

  lemma SpliceSecond(l1: seq<string>, l2: seq<string>, l3: seq<string>, l4: seq<string>, l5: seq<string>,
                     l6: seq<string>, l7: seq<string>, l8: seq<string>, l9: seq<string>,
                     l2': seq<string>, doc: seq<string>, doc2: seq<string>, j: nat, r: nat, xs: seq<string>, k: int, m: int)
    requires doc == l1 + l2 + l3 + l4 + l5 + l6 + l7 + l8 + l9
    requires doc2 == l1 + l2' + l3 + l4 + l5 + l6 + l7 + l8 + l9
    requires j + r <= |l2| && l2' == l2[..j] + xs + l2[j + r..]
    requires k == |l1| + j && m == k + r
    ensures 0 <= k <= m <= |doc| && doc2 == doc[..k] + xs + doc[m..]
  {
    var post := l3 + l4 + l5 + l6 + l7 + l8 + l9;
    assert doc == l1 + l2 + post;
    assert doc2 == l1 + l2' + post;
    Splice(l1, l2, post, j, r, xs, l2');
  }

  lemma SpliceThird(l1: seq<string>, l2: seq<string>, l3: seq<string>, l4: seq<string>, l5: seq<string>,
                    l6: seq<string>, l7: seq<string>, l8: seq<string>, l9: seq<string>,
                    l3': seq<string>, doc: seq<string>, doc2: seq<string>, j: nat, r: nat, xs: seq<string>, k: int, m: int)
    requires doc == l1 + l2 + l3 + l4 + l5 + l6 + l7 + l8 + l9
    requires doc2 == l1 + l2 + l3' + l4 + l5 + l6 + l7 + l8 + l9
    requires j + r <= |l3| && l3' == l3[..j] + xs + l3[j + r..]
    requires k == |l1 + l2| + j && m == k + r
    ensures 0 <= k <= m <= |doc| && doc2 == doc[..k] + xs + doc[m..]
  {
    var post := l4 + l5 + l6 + l7 + l8 + l9;
    assert doc == (l1 + l2) + l3 + post;
    assert doc2 == (l1 + l2) + l3' + post;
    Splice(l1 + l2, l3, post, j, r, xs, l3');
  }

  lemma SpliceFifth(l1: seq<string>, l2: seq<string>, l3: seq<string>, l4: seq<string>, l5: seq<string>,
                    l6: seq<string>, l7: seq<string>, l8: seq<string>, l9: seq<string>,
                    l5': seq<string>, doc: seq<string>, doc2: seq<string>, j: nat, r: nat, xs: seq<string>, k: int, m: int)
    requires doc == l1 + l2 + l3 + l4 + l5 + l6 + l7 + l8 + l9
    requires doc2 == l1 + l2 + l3 + l4 + l5' + l6 + l7 + l8 + l9
    requires j + r <= |l5| && l5' == l5[..j] + xs + l5[j + r..]
    requires k == |l1 + l2 + l3 + l4| + j && m == k + r
    ensures 0 <= k <= m <= |doc| && doc2 == doc[..k] + xs + doc[m..]
  {
    var post := l6 + l7 + l8 + l9;
    assert doc == (l1 + l2 + l3 + l4) + l5 + post;
    assert doc2 == (l1 + l2 + l3 + l4) + l5' + post;
    Splice(l1 + l2 + l3 + l4, l5, post, j, r, xs, l5');
  }

  lemma MapAppend<T>(xs: seq<T>, x: T, f: T -> string)
    ensures Map(xs + [x], f) == Map(xs, f) + [f(x)]
  {
  }

  /**
   * `AddDependency` on the lines: the new dependency's line goes right
   * after the existing ones; the first dependency opens the whole install
   * block after the FROM block.
   */
  lemma AddDependencyLines(c: Config, d: string)
    ensures var n := |c.dependencies|;
            var doc := DocLines(c);
            DocLines(c.(dependencies := c.dependencies + [d])) ==
              if n > 0 then doc[..3 + n] + [DependencyText(d)] + doc[3 + n..]
              else doc[..2] + [AptGetInstall, DependencyText(d), AptGetClean, ""] + doc[2..]
  {
    var c2 := c.(dependencies := c.dependencies + [d]);
    var n := |c.dependencies|;
    var l1, l2, l2' := FromLines(c.baseImage), DependencyLines(c.dependencies), DependencyLines(c2.dependencies);
    var l3, l4, l5 := PreRunLines(c.preRunCommands), UserLines(c.user), CopyLines(c.copyFiles);
    var l6, l7 := BuildLines(c.buildCommand), ExposeLines(c.exposePort, c.appPort);
    var l8, l9 := WorkdirLines(c.workspace), EntrypointLines(c.entrypoint);
    DependencyLinesAppend(c.dependencies, d);
    if n > 0 {
      SpliceSecond(l1, l2, l3, l4, l5, l6, l7, l8, l9, l2', DocLines(c), DocLines(c2), 1 + n, 0, [DependencyText(d)], 3 + n, 3 + n);
    } else {
      SpliceSecond(l1, l2, l3, l4, l5, l6, l7, l8, l9, l2', DocLines(c), DocLines(c2), 0, 0, [AptGetInstall, DependencyText(d), AptGetClean, ""], 2, 2);
    }
  }

  /**
   * `AddPreRunCommand` on the lines: a RUN line for the new command goes
   * right after the existing pre-run lines; the first one opens the block
   * together with its blank separator.
   */
  lemma AddPreRunCommandLines(c: Config, cmd: string)
    ensures var n := |c.preRunCommands|;
            var doc := DocLines(c);
            var at := PreRunStart(c);
            DocLines(c.(preRunCommands := c.preRunCommands + [cmd])) ==
              if n > 0 then doc[..at + n] + [RunText(cmd)] + doc[at + n..]
              else doc[..at] + [RunText(cmd), ""] + doc[at..]
  {
    if |c.preRunCommands| > 0 {
      AddFurtherPreRunCommand(c, cmd);
    } else {
      AddFirstPreRunCommand(c, cmd);
    }
  }

  lemma AddFurtherPreRunCommand(c: Config, cmd: string)
    requires |c.preRunCommands| > 0
    ensures var n, doc, at := |c.preRunCommands|, DocLines(c), PreRunStart(c);
            DocLines(c.(preRunCommands := c.preRunCommands + [cmd])) == doc[..at + n] + [RunText(cmd)] + doc[at + n..]
  {
    var c2 := c.(preRunCommands := c.preRunCommands + [cmd]);
    PreRunStartSize(c);
    PreRunLinesGrow(c.preRunCommands, cmd);
    SpliceThird(FromLines(c.baseImage), DependencyLines(c.dependencies), PreRunLines(c.preRunCommands),
                UserLines(c.user), CopyLines(c.copyFiles), BuildLines(c.buildCommand),
                ExposeLines(c.exposePort, c.appPort), WorkdirLines(c.workspace), EntrypointLines(c.entrypoint),
                PreRunLines(c.preRunCommands + [cmd]), DocLines(c), DocLines(c2), |c.preRunCommands|, 0, [RunText(cmd)],
                PreRunStart(c) + |c.preRunCommands|, PreRunStart(c) + |c.preRunCommands|);
  }

  lemma AddFirstPreRunCommand(c: Config, cmd: string)
    requires |c.preRunCommands| == 0
    ensures var doc, at := DocLines(c), PreRunStart(c);
            DocLines(c.(preRunCommands := c.preRunCommands + [cmd])) == doc[..at] + [RunText(cmd), ""] + doc[at..]
  {
    var c2 := c.(preRunCommands := c.preRunCommands + [cmd]);
    PreRunStartSize(c);
    PreRunLinesOpen(c.preRunCommands, cmd);
    SpliceThird(FromLines(c.baseImage), DependencyLines(c.dependencies), PreRunLines(c.preRunCommands),
                UserLines(c.user), CopyLines(c.copyFiles), BuildLines(c.buildCommand),
                ExposeLines(c.exposePort, c.appPort), WorkdirLines(c.workspace), EntrypointLines(c.entrypoint),
                PreRunLines(c.preRunCommands + [cmd]), DocLines(c), DocLines(c2), 0, 0, [RunText(cmd), ""],
                PreRunStart(c), PreRunStart(c));
  }

  /**
   * `AddCopyFile` on the lines: a COPY line for the new pair goes right
   * after the existing COPY lines; the first pair replaces the `COPY . .`
   * default.
   */
  lemma AddCopyFileLines(c: Config, file: CopyInstruction)
    ensures var n := |c.copyFiles|;
            var doc := DocLines(c);
            var at := CopyStart(c);
            DocLines(c.(copyFiles := c.copyFiles + [file])) ==
              if n > 0 then doc[..at + n] + [CopyText(file)] + doc[at + n..]
              else doc[..at] + [CopyText(file), ""] + doc[at + 2..]
  {
    if |c.copyFiles| > 0 {
      AddFurtherCopyFile(c, file);
    } else {
      AddFirstCopyFile(c, file);
    }
  }

  lemma AddFurtherCopyFile(c: Config, file: CopyInstruction)
    requires |c.copyFiles| > 0
    ensures var n, doc, at := |c.copyFiles|, DocLines(c), CopyStart(c);
            DocLines(c.(copyFiles := c.copyFiles + [file])) == doc[..at + n] + [CopyText(file)] + doc[at + n..]
  {
    var c2 := c.(copyFiles := c.copyFiles + [file]);
    CopyStartSize(c);
    CopyLinesGrow(c.copyFiles, file);
    SpliceFifth(FromLines(c.baseImage), DependencyLines(c.dependencies), PreRunLines(c.preRunCommands),
                UserLines(c.user), CopyLines(c.copyFiles), BuildLines(c.buildCommand),
                ExposeLines(c.exposePort, c.appPort), WorkdirLines(c.workspace), EntrypointLines(c.entrypoint),
                CopyLines(c.copyFiles + [file]), DocLines(c), DocLines(c2), |c.copyFiles|, 0, [CopyText(file)],
                CopyStart(c) + |c.copyFiles|, CopyStart(c) + |c.copyFiles|);
  }

  lemma AddFirstCopyFile(c: Config, file: CopyInstruction)
    requires |c.copyFiles| == 0
    ensures var doc, at := DocLines(c), CopyStart(c);
            DocLines(c.(copyFiles := c.copyFiles + [file])) == doc[..at] + [CopyText(file), ""] + doc[at + 2..]
  {
    var c2 := c.(copyFiles := c.copyFiles + [file]);
    CopyStartSize(c);
    CopyLinesOpen(c.copyFiles, file);
    SpliceFifth(FromLines(c.baseImage), DependencyLines(c.dependencies), PreRunLines(c.preRunCommands),
                UserLines(c.user), CopyLines(c.copyFiles), BuildLines(c.buildCommand),
                ExposeLines(c.exposePort, c.appPort), WorkdirLines(c.workspace), EntrypointLines(c.entrypoint),
                CopyLines(c.copyFiles + [file]), DocLines(c), DocLines(c2), 0, 2, [CopyText(file), ""],
                CopyStart(c), CopyStart(c) + 2);
  }

  /** The dependency lines after one more dependency: one line more, or the whole block. */
  lemma DependencyLinesAppend(deps: seq<string>, d: string)
    ensures var n := |deps|;
            var ls := DependencyLines(deps);
            DependencyLines(deps + [d]) ==
              if n > 0 then ls[..1 + n] + [DependencyText(d)] + ls[1 + n..]
              else ls[..0] + [AptGetInstall, DependencyText(d), AptGetClean, ""] + ls[0..]
  {
    MapAppend(deps, d, DependencyText);
    if |deps| > 0 {
      var ls := DependencyLines(deps);
      assert ls == [AptGetInstall] + Map(deps, DependencyText) + [AptGetClean, ""];
      assert ls[..1 + |deps|] == [AptGetInstall] + Map(deps, DependencyText);
    }
  }

  // The section's own lines after one more element, in the form the
  // splice lemmas above take: `r` lines from position `j` replaced by `xs`.

  lemma PreRunLinesGrow(cmds: seq<string>, cmd: string)
    requires |cmds| > 0
    ensures |cmds| <= |PreRunLines(cmds)|
    ensures PreRunLines(cmds + [cmd]) == PreRunLines(cmds)[..|cmds|] + [RunText(cmd)] + PreRunLines(cmds)[|cmds|..]
  {
    MapAppend(cmds, cmd, RunText);
    assert PreRunLines(cmds) == Map(cmds, RunText) + [""];
  }

  lemma PreRunLinesOpen(cmds: seq<string>, cmd: string)
    requires |cmds| == 0
    ensures PreRunLines(cmds + [cmd]) == PreRunLines(cmds)[..0] + [RunText(cmd), ""] + PreRunLines(cmds)[0..]
  {
    MapAppend(cmds, cmd, RunText);
  }

  lemma CopyLinesGrow(files: seq<CopyInstruction>, file: CopyInstruction)
    requires |files| > 0
    ensures |files| <= |CopyLines(files)|
    ensures CopyLines(files + [file]) == CopyLines(files)[..|files|] + [CopyText(file)] + CopyLines(files)[|files|..]
  {
    MapAppend(files, file, CopyText);
    assert CopyLines(files) == Map(files, CopyText) + [""];
  }

  lemma CopyLinesOpen(files: seq<CopyInstruction>, file: CopyInstruction)
    requires |files| == 0
    ensures |CopyLines(files)| == 2
    ensures CopyLines(files + [file]) == CopyLines(files)[..0] + [CopyText(file), ""] + CopyLines(files)[2..]
  {
    MapAppend(files, file, CopyText);
  }

  /** The run command is kept in the record but no section writes it. */
  lemma RunCommandIgnored(c: Config, command: string)
    ensures Generate(c.(runCommand := command)) == Generate(c)
  {
  }
}
