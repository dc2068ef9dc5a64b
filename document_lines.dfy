/**
 * The generated Dockerfile read as a list of lines. `DocLines` says, section
 * by section, which lines the document has; `RenderAsLines` shows that the
 * generator's text is exactly those lines, each ended by a newline. When no
 * field holds a line break, splitting the text gives those lines back, so
 * the layout lemmas below speak about the lines of the generated text.
 */
module DocumentLines {
  import opened Builder
  import opened Lines
  import opened Format

  /** The strings `f(x)` for the elements `x` of `xs`, in order. */
  function Map<T>(xs: seq<T>, f: T -> string): seq<string>
  {
    seq(|xs|, i requires 0 <= i < |xs| => f(xs[i]))
  }

  // One line per list element, without its line terminator.

  function DependencyText(dep: string): string
  {
    "    " + dep + " \\ "
  }

  function RunText(cmd: string): string
  {
    "RUN " + cmd
  }

  function CopyText(file: CopyInstruction): string
  {
    "COPY " + file.origin + " " + file.destination
  }

  // The lines of each section, its blank separator line included.

  function FromLines(image: string): seq<string>
  {
    ["FROM " + image, ""]
  }

  function DependencyLines(deps: seq<string>): seq<string>
  {
    if |deps| > 0 then [AptGetInstall] + Map(deps, DependencyText) + [AptGetClean, ""] else []
  }

  function PreRunLines(cmds: seq<string>): seq<string>
  {
    if |cmds| > 0 then Map(cmds, RunText) + [""] else []
  }

  function UserLines(user: string): seq<string>
  {
    if user != "" then ["USER " + user, ""] else []
  }

  function CopyLines(files: seq<CopyInstruction>): seq<string>
  {
    if |files| > 0 then Map(files, CopyText) + [""] else [CopyAll, ""]
  }

  function BuildLines(cmd: string): seq<string>
  {
    if cmd != "" then [RunText(cmd), ""] else []
  }

  function ExposeLines(expose: bool, port: int): seq<string>
  {
    if expose && port > 0 then ["EXPOSE " + DecimalString(port), ""] else []
  }

  function WorkdirLines(workspace: string): seq<string>
  {
    ["WORKDIR " + workspace, ""]
  }

  function EntrypointLines(entrypoint: string): seq<string>
  {
    if entrypoint != "" then ["ENTRYPOINT [\"" + entrypoint + "\"]"] else []
  }

  /** The lines of the Dockerfile for `c`, section after section. */
  function DocLines(c: Config): seq<string>
  {
    FromLines(c.baseImage)
    + DependencyLines(c.dependencies)
    + PreRunLines(c.preRunCommands)
    + UserLines(c.user)
    + CopyLines(c.copyFiles)
    + BuildLines(c.buildCommand)
    + ExposeLines(c.exposePort, c.appPort)
    + WorkdirLines(c.workspace)
    + EntrypointLines(c.entrypoint)
  }

  /** No field that reaches the output holds a line break. */
  predicate SingleLineFields(c: Config)
  {
    && '\n' !in c.baseImage
    && (forall i :: 0 <= i < |c.dependencies| ==> '\n' !in c.dependencies[i])
    && (forall i :: 0 <= i < |c.preRunCommands| ==> '\n' !in c.preRunCommands[i])
    && '\n' !in c.user
    && (forall i :: 0 <= i < |c.copyFiles| ==>
          '\n' !in c.copyFiles[i].origin && '\n' !in c.copyFiles[i].destination)
    && '\n' !in c.buildCommand
    && '\n' !in c.workspace
    && '\n' !in c.entrypoint
  }

  /** A loop writing one newline-ended line per element writes the lines of `Map`. */
  lemma {:induction false} EachAsUnlines<T>(xs: seq<T>, line: T -> string, text: T -> string)
    requires forall x :: line(x) == text(x) + "\n"
    ensures Each(xs, line) == Unlines(Map(xs, text))
  {
    if xs != [] {
      var n := |xs| - 1;
      EachAsUnlines(xs[..n], line, text);
      assert Map(xs, text) == Map(xs[..n], text) + [text(xs[n])];
      UnlinesAppend(Map(xs[..n], text), [text(xs[n])]);
    }
  }

  lemma UnlinesOne(a: string)
    ensures Unlines([a]) == a + "\n"
  {
    assert [a][1..] == [];
  }

  lemma UnlinesPair(a: string)
    ensures Unlines([a, ""]) == a + "\n" + "\n"
  {
    assert [a, ""][1..] == [""];
    UnlinesOne("");
  }

  lemma FromSectionAsLines(image: string)
    ensures FromSection(image) == Unlines(FromLines(image))
  {
    UnlinesPair("FROM " + image);
  }

  lemma DependencySectionAsLines(deps: seq<string>)
    ensures DependencySection(deps) == Unlines(DependencyLines(deps))
  {
    if |deps| > 0 {
      EachAsUnlines(deps, DependencyLine, DependencyText);
      var m := Map(deps, DependencyText);
      UnlinesAppend([AptGetInstall] + m, [AptGetClean, ""]);
      UnlinesAppend([AptGetInstall], m);
      UnlinesPair(AptGetClean);
    }
  }

  lemma PreRunSectionAsLines(cmds: seq<string>)
    ensures PreRunSection(cmds) == Unlines(PreRunLines(cmds))
  {
    if |cmds| > 0 {
      EachAsUnlines(cmds, RunLine, RunText);
      UnlinesAppend(Map(cmds, RunText), [""]);
    }
  }

  lemma CopySectionAsLines(files: seq<CopyInstruction>)
    ensures CopySection(files) == Unlines(CopyLines(files))
  {
    if |files| > 0 {
      EachAsUnlines(files, CopyLine, CopyText);
      UnlinesAppend(Map(files, CopyText), [""]);
    } else {
      UnlinesPair(CopyAll);
    }
  }

  lemma UserSectionAsLines(user: string)
    ensures UserSection(user) == Unlines(UserLines(user))
  {
    if user != "" {
      UnlinesPair("USER " + user);
    }
  }

  lemma BuildSectionAsLines(cmd: string)
    ensures BuildSection(cmd) == Unlines(BuildLines(cmd))
  {
    if cmd != "" {
      UnlinesPair(RunText(cmd));
    }
  }

  lemma ExposeSectionAsLines(expose: bool, port: int)
    ensures ExposeSection(expose, port) == Unlines(ExposeLines(expose, port))
  {
    if expose && port > 0 {
      UnlinesPair("EXPOSE " + DecimalString(port));
    }
  }

  lemma WorkdirSectionAsLines(workspace: string)
    ensures WorkdirSection(workspace) == Unlines(WorkdirLines(workspace))
  {
    UnlinesPair("WORKDIR " + workspace);
  }

  lemma EntrypointSectionAsLines(entrypoint: string)
    ensures EntrypointSection(entrypoint) == Unlines(EntrypointLines(entrypoint))
  {
    if entrypoint != "" {
      UnlinesOne("ENTRYPOINT [\"" + entrypoint + "\"]");
    }
  }

  /** Joining nine line lists joins their texts; the document has nine sections. */
  lemma UnlinesJoin9(l1: seq<string>, l2: seq<string>, l3: seq<string>, l4: seq<string>, l5: seq<string>,
                     l6: seq<string>, l7: seq<string>, l8: seq<string>, l9: seq<string>)
    ensures Unlines(l1 + l2 + l3 + l4 + l5 + l6 + l7 + l8 + l9)
         == Unlines(l1) + Unlines(l2) + Unlines(l3) + Unlines(l4) + Unlines(l5)
          + Unlines(l6) + Unlines(l7) + Unlines(l8) + Unlines(l9)
  {
    UnlinesAppend(l1 + l2 + l3 + l4 + l5 + l6 + l7 + l8, l9);
    UnlinesAppend(l1 + l2 + l3 + l4 + l5 + l6 + l7, l8);
    UnlinesAppend(l1 + l2 + l3 + l4 + l5 + l6, l7);
    UnlinesAppend(l1 + l2 + l3 + l4 + l5, l6);
    UnlinesAppend(l1 + l2 + l3 + l4, l5);
    UnlinesAppend(l1 + l2 + l3, l4);
    UnlinesAppend(l1 + l2, l3);
    UnlinesAppend(l1, l2);
  }

  /** The generated text is the document's lines, each ended by a newline. */
  lemma RenderAsLines(c: Config)
    ensures Render(c) == Unlines(DocLines(c))
  {
    FromSectionAsLines(c.baseImage);
    DependencySectionAsLines(c.dependencies);
    PreRunSectionAsLines(c.preRunCommands);
    UserSectionAsLines(c.user);
    CopySectionAsLines(c.copyFiles);
    BuildSectionAsLines(c.buildCommand);
    ExposeSectionAsLines(c.exposePort, c.appPort);
    WorkdirSectionAsLines(c.workspace);
    EntrypointSectionAsLines(c.entrypoint);
    UnlinesJoin9(FromLines(c.baseImage), DependencyLines(c.dependencies), PreRunLines(c.preRunCommands),
                 UserLines(c.user), CopyLines(c.copyFiles), BuildLines(c.buildCommand),
                 ExposeLines(c.exposePort, c.appPort), WorkdirLines(c.workspace), EntrypointLines(c.entrypoint));
  }

  lemma MapSingleLine<T>(xs: seq<T>, f: T -> string)
    requires forall i :: 0 <= i < |xs| ==> '\n' !in f(xs[i])
    ensures AllSingleLine(Map(xs, f))
  {
  }

  /** The fixed lines of the dependency block hold no line break. */
  lemma FixedLinesSingleLine()
    ensures '\n' !in AptGetInstall && '\n' !in AptGetClean
  {
    CleanLineSingleLine();
  }

  lemma CleanLineSingleLine()
    ensures '\n' !in AptGetClean
  {
    assert '\n' !in "    && apt-get clean";
    assert '\n' !in " && rm -rf";
    assert '\n' !in " /var/lib/apt/lists/*";
  }

  lemma DependencyLinesSingleLine(deps: seq<string>)
    requires forall i :: 0 <= i < |deps| ==> '\n' !in deps[i]
    ensures AllSingleLine(DependencyLines(deps))
  {
    if |deps| > 0 {
      MapSingleLine(deps, DependencyText);
      FixedLinesSingleLine();
      SingleLineAppend([AptGetInstall], Map(deps, DependencyText));
      SingleLineAppend([AptGetInstall] + Map(deps, DependencyText), [AptGetClean, ""]);
    }
  }

  lemma PreRunLinesSingleLine(cmds: seq<string>)
    requires forall i :: 0 <= i < |cmds| ==> '\n' !in cmds[i]
    ensures AllSingleLine(PreRunLines(cmds))
  {
    if |cmds| > 0 {
      MapSingleLine(cmds, RunText);
      SingleLineAppend(Map(cmds, RunText), [""]);
    }
  }

  lemma CopyLinesSingleLine(files: seq<CopyInstruction>)
    requires forall i :: 0 <= i < |files| ==> '\n' !in files[i].origin && '\n' !in files[i].destination
    ensures AllSingleLine(CopyLines(files))
  {
    if |files| > 0 {
      MapSingleLine(files, CopyText);
      SingleLineAppend(Map(files, CopyText), [""]);
    }
  }

  /** With single-line fields, no line of the document holds a line break. */
  lemma DocLinesSingleLine(c: Config)
    requires SingleLineFields(c)
    ensures AllSingleLine(DocLines(c))
  {
    var l1 := FromLines(c.baseImage);
    var l2 := DependencyLines(c.dependencies);
    var l3 := PreRunLines(c.preRunCommands);
    var l4 := UserLines(c.user);
    var l5 := CopyLines(c.copyFiles);
    var l6 := BuildLines(c.buildCommand);
    var l7 := ExposeLines(c.exposePort, c.appPort);
    var l8 := WorkdirLines(c.workspace);
    var l9 := EntrypointLines(c.entrypoint);
    assert AllSingleLine(l1);
    DependencyLinesSingleLine(c.dependencies);
    PreRunLinesSingleLine(c.preRunCommands);
    assert AllSingleLine(l4);
    CopyLinesSingleLine(c.copyFiles);
    assert AllSingleLine(l6);
    assert AllSingleLine(l7) by {
      if c.exposePort && c.appPort > 0 {
        var digits := DecimalString(c.appPort);
        assert '\n' !in digits by {
          forall i | 0 <= i < |digits| ensures digits[i] != '\n' { assert IsDigit(digits[i]); }
        }
      }
    }
    assert AllSingleLine(l8);
    assert AllSingleLine(l9);
    SingleLineAppend(l1, l2);
    SingleLineAppend(l1 + l2, l3);
    SingleLineAppend(l1 + l2 + l3, l4);
    SingleLineAppend(l1 + l2 + l3 + l4, l5);
    SingleLineAppend(l1 + l2 + l3 + l4 + l5, l6);
    SingleLineAppend(l1 + l2 + l3 + l4 + l5 + l6, l7);
    SingleLineAppend(l1 + l2 + l3 + l4 + l5 + l6 + l7, l8);
    SingleLineAppend(l1 + l2 + l3 + l4 + l5 + l6 + l7 + l8, l9);
  }

  /**
   * With single-line fields, the lines of the generated text are exactly the
   * document's lines: the layout of `DocLines` is the layout of the output.
   */
  lemma LinesOfRender(c: Config)
    requires SingleLineFields(c)
    ensures SplitLines(Render(c)) == DocLines(c)
  {
    RenderAsLines(c);
    DocLinesSingleLine(c);
    SplitUnlines(DocLines(c));
  }
}
