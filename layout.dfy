/**
 * Where each section's lines sit in the generated Dockerfile, read as a list
 * of lines. The layout is stated as predicates over a list of lines, proved
 * of `DocLines`, and carried over to the lines of the generated text when no
 * field reaching the output holds a line break.
 */
module Layout {
  import opened Builder
  import opened Lines
  import opened Format
  import opened DocumentLines

  // How many lines each section takes, blank separator included.

  function DependencyBlockSize(c: Config): nat
  {
    if |c.dependencies| > 0 then |c.dependencies| + 3 else 0
  }

  function PreRunBlockSize(c: Config): nat
  {
    if |c.preRunCommands| > 0 then |c.preRunCommands| + 1 else 0
  }

  function UserBlockSize(c: Config): nat
  {
    if c.user != "" then 2 else 0
  }

  function CopyBlockSize(c: Config): nat
  {
    if |c.copyFiles| > 0 then |c.copyFiles| + 1 else 2
  }

  function BuildBlockSize(c: Config): nat
  {
    if c.buildCommand != "" then 2 else 0
  }

  function ExposeBlockSize(c: Config): nat
  {
    if c.exposePort && c.appPort > 0 then 2 else 0
  }

  function EntrypointBlockSize(c: Config): nat
  {
    if c.entrypoint != "" then 1 else 0
  }

  /** The number of lines of the Dockerfile: FROM and WORKDIR take two each. */
  function TotalLines(c: Config): nat
  {
    2 + DependencyBlockSize(c) + PreRunBlockSize(c) + UserBlockSize(c) + CopyBlockSize(c)
    + BuildBlockSize(c) + ExposeBlockSize(c) + 2 + EntrypointBlockSize(c)
  }

  // Where the sections after the dependency block start.

  function PreRunStart(c: Config): nat
  {
    2 + DependencyBlockSize(c)
  }

  function UserStart(c: Config): nat
  {
    PreRunStart(c) + PreRunBlockSize(c)
  }

  function CopyStart(c: Config): nat
  {
    UserStart(c) + UserBlockSize(c)
  }

  function BuildStart(c: Config): nat
  {
    CopyStart(c) + CopyBlockSize(c)
  }

  function ExposeStart(c: Config): nat
  {
    BuildStart(c) + BuildBlockSize(c)
  }

  function WorkdirStart(c: Config): nat
  {
    ExposeStart(c) + ExposeBlockSize(c)
  }

  /**
   * FROM and a blank line; then, when there are dependencies, the install
   * line, one line per dependency in list order, the cleanup line and a
   * blank line: |dependencies| + 2 lines of one instruction.
   */
  predicate HeadLayout(c: Config, lines: seq<string>)
  {
    && |lines| == TotalLines(c)
    && lines[0] == "FROM " + c.baseImage
    && lines[1] == ""
    && (|c.dependencies| > 0 ==>
          && lines[2] == AptGetInstall
          && (forall i :: 0 <= i < |c.dependencies| ==> lines[3 + i] == "    " + c.dependencies[i] + " \\ ")
          && lines[3 + |c.dependencies|] == AptGetClean
          && lines[4 + |c.dependencies|] == "")
  }

  /** One RUN line per pre-run command, in list order, then a blank line. */
  predicate PreRunLayout(c: Config, lines: seq<string>)
  {
    && |lines| == TotalLines(c)
    && (|c.preRunCommands| > 0 ==>
          && (forall i :: 0 <= i < |c.preRunCommands| ==>
                lines[PreRunStart(c) + i] == "RUN " + c.preRunCommands[i])
          && lines[PreRunStart(c) + |c.preRunCommands|] == "")
  }

  /** The USER line and a blank line, when a user is set. */
  predicate UserLayout(c: Config, lines: seq<string>)
  {
    && |lines| == TotalLines(c)
    && (c.user != "" ==>
          lines[UserStart(c)] == "USER " + c.user && lines[UserStart(c) + 1] == "")
  }

  /** `COPY . .` when no file is listed, otherwise one COPY line per pair in list order; then a blank line. */
  predicate CopyLayout(c: Config, lines: seq<string>)
  {
    && |lines| == TotalLines(c)
    && (|c.copyFiles| == 0 ==> lines[CopyStart(c)] == CopyAll && lines[CopyStart(c) + 1] == "")
    && (|c.copyFiles| > 0 ==>
          && (forall i :: 0 <= i < |c.copyFiles| ==>
                lines[CopyStart(c) + i] == "COPY " + c.copyFiles[i].origin + " " + c.copyFiles[i].destination)
          && lines[CopyStart(c) + |c.copyFiles|] == "")
  }

  /**
   * The build RUN line, the EXPOSE line, then always the WORKDIR line, each
   * followed by a blank line; the ENTRYPOINT line, when present, is last and
   * has no blank line after it.
   */
  predicate TailLayout(c: Config, lines: seq<string>)
  {
    && |lines| == TotalLines(c)
    && (c.buildCommand != "" ==>
          lines[BuildStart(c)] == "RUN " + c.buildCommand && lines[BuildStart(c) + 1] == "")
    && (c.exposePort && c.appPort > 0 ==>
          lines[ExposeStart(c)] == "EXPOSE " + DecimalString(c.appPort) && lines[ExposeStart(c) + 1] == "")
    && lines[WorkdirStart(c)] == "WORKDIR " + c.workspace
    && lines[WorkdirStart(c) + 1] == ""
    && |lines| == WorkdirStart(c) + 2 + EntrypointBlockSize(c)
    && (c.entrypoint != "" ==> lines[|lines| - 1] == "ENTRYPOINT [\"" + c.entrypoint + "\"]")
  }

  /** How many lines each section of the document takes. */
  lemma SectionSizes(c: Config)
    ensures |FromLines(c.baseImage)| == 2
    ensures |DependencyLines(c.dependencies)| == DependencyBlockSize(c)
    ensures |PreRunLines(c.preRunCommands)| == PreRunBlockSize(c)
    ensures |UserLines(c.user)| == UserBlockSize(c)
    ensures |CopyLines(c.copyFiles)| == CopyBlockSize(c)
    ensures |BuildLines(c.buildCommand)| == BuildBlockSize(c)
    ensures |ExposeLines(c.exposePort, c.appPort)| == ExposeBlockSize(c)
    ensures |WorkdirLines(c.workspace)| == 2
    ensures |EntrypointLines(c.entrypoint)| == EntrypointBlockSize(c)
  {
  }

  lemma DocLineCount(c: Config)
    ensures |DocLines(c)| == TotalLines(c)
  {
    SectionSizes(c);
  }

  // The sections in front of each start position take exactly that many lines.

  lemma PreRunStartSize(c: Config)
    ensures |FromLines(c.baseImage) + DependencyLines(c.dependencies)| == PreRunStart(c)
  {
    SectionSizes(c);
  }

  lemma UserStartSize(c: Config)
    ensures |FromLines(c.baseImage) + DependencyLines(c.dependencies) + PreRunLines(c.preRunCommands)| == UserStart(c)
  {
    SectionSizes(c);
  }

  lemma CopyStartSize(c: Config)
    ensures |FromLines(c.baseImage) + DependencyLines(c.dependencies) + PreRunLines(c.preRunCommands)
             + UserLines(c.user)| == CopyStart(c)
  {
    SectionSizes(c);
  }

  lemma TailStartSizes(c: Config)
    ensures |FromLines(c.baseImage) + DependencyLines(c.dependencies) + PreRunLines(c.preRunCommands)
             + UserLines(c.user) + CopyLines(c.copyFiles)| == BuildStart(c)
    ensures |FromLines(c.baseImage) + DependencyLines(c.dependencies) + PreRunLines(c.preRunCommands)
             + UserLines(c.user) + CopyLines(c.copyFiles) + BuildLines(c.buildCommand)| == ExposeStart(c)
    ensures |FromLines(c.baseImage) + DependencyLines(c.dependencies) + PreRunLines(c.preRunCommands)
             + UserLines(c.user) + CopyLines(c.copyFiles) + BuildLines(c.buildCommand)
             + ExposeLines(c.exposePort, c.appPort)| == WorkdirStart(c)
  {
    SectionSizes(c);
  }

  // The document cut around one of its nine sections, with the sections
  // left abstract, and the line at an offset inside the cut-out section.
  // The cuts are instances of associativity. They are stated once per
  // section, on abstract lists, so that a proof about one section regroups
  // the nine-way concatenation without unfolding the other sections.

  lemma LineOfSection(pre: seq<string>, mid: seq<string>, post: seq<string>, doc: seq<string>, at: int, i: int)
    requires doc == pre + mid + post && at == |pre| && 0 <= i < |mid|
    ensures at + i < |doc| && doc[at + i] == mid[i]
  {
  }

  lemma CutAtFirst(l1: seq<string>, l2: seq<string>, l3: seq<string>, l4: seq<string>, l5: seq<string>,
                   l6: seq<string>, l7: seq<string>, l8: seq<string>, l9: seq<string>, doc: seq<string>)
    requires doc == l1 + l2 + l3 + l4 + l5 + l6 + l7 + l8 + l9
    ensures doc == [] + l1 + (l2 + l3 + l4 + l5 + l6 + l7 + l8 + l9)
  {
  }

  lemma CutAtSecond(l1: seq<string>, l2: seq<string>, l3: seq<string>, l4: seq<string>, l5: seq<string>,
                    l6: seq<string>, l7: seq<string>, l8: seq<string>, l9: seq<string>, doc: seq<string>)
    requires doc == l1 + l2 + l3 + l4 + l5 + l6 + l7 + l8 + l9
    ensures doc == l1 + l2 + (l3 + l4 + l5 + l6 + l7 + l8 + l9)
  {
  }

  lemma CutAtThird(l1: seq<string>, l2: seq<string>, l3: seq<string>, l4: seq<string>, l5: seq<string>,
                   l6: seq<string>, l7: seq<string>, l8: seq<string>, l9: seq<string>, doc: seq<string>)
    requires doc == l1 + l2 + l3 + l4 + l5 + l6 + l7 + l8 + l9
    ensures doc == (l1 + l2) + l3 + (l4 + l5 + l6 + l7 + l8 + l9)
  {
  }

  lemma CutAtFourth(l1: seq<string>, l2: seq<string>, l3: seq<string>, l4: seq<string>, l5: seq<string>,
                    l6: seq<string>, l7: seq<string>, l8: seq<string>, l9: seq<string>, doc: seq<string>)
    requires doc == l1 + l2 + l3 + l4 + l5 + l6 + l7 + l8 + l9
    ensures doc == (l1 + l2 + l3) + l4 + (l5 + l6 + l7 + l8 + l9)
  {
  }

  lemma CutAtFifth(l1: seq<string>, l2: seq<string>, l3: seq<string>, l4: seq<string>, l5: seq<string>,
                   l6: seq<string>, l7: seq<string>, l8: seq<string>, l9: seq<string>, doc: seq<string>)
    requires doc == l1 + l2 + l3 + l4 + l5 + l6 + l7 + l8 + l9
    ensures doc == (l1 + l2 + l3 + l4) + l5 + (l6 + l7 + l8 + l9)
  {
  }

  lemma CutAtSixth(l1: seq<string>, l2: seq<string>, l3: seq<string>, l4: seq<string>, l5: seq<string>,
                   l6: seq<string>, l7: seq<string>, l8: seq<string>, l9: seq<string>, doc: seq<string>)
    requires doc == l1 + l2 + l3 + l4 + l5 + l6 + l7 + l8 + l9
    ensures doc == (l1 + l2 + l3 + l4 + l5) + l6 + (l7 + l8 + l9)
  {
  }

  lemma CutAtSeventh(l1: seq<string>, l2: seq<string>, l3: seq<string>, l4: seq<string>, l5: seq<string>,
                     l6: seq<string>, l7: seq<string>, l8: seq<string>, l9: seq<string>, doc: seq<string>)
    requires doc == l1 + l2 + l3 + l4 + l5 + l6 + l7 + l8 + l9
    ensures doc == (l1 + l2 + l3 + l4 + l5 + l6) + l7 + (l8 + l9)
  {
  }

  lemma CutAtEighth(l1: seq<string>, l2: seq<string>, l3: seq<string>, l4: seq<string>, l5: seq<string>,
                    l6: seq<string>, l7: seq<string>, l8: seq<string>, l9: seq<string>, doc: seq<string>)
    requires doc == l1 + l2 + l3 + l4 + l5 + l6 + l7 + l8 + l9
    ensures doc == (l1 + l2 + l3 + l4 + l5 + l6 + l7) + l8 + l9
  {
  }

  lemma CutAtNinth(l1: seq<string>, l2: seq<string>, l3: seq<string>, l4: seq<string>, l5: seq<string>,
                   l6: seq<string>, l7: seq<string>, l8: seq<string>, l9: seq<string>, doc: seq<string>)
    requires doc == l1 + l2 + l3 + l4 + l5 + l6 + l7 + l8 + l9
    ensures doc == (l1 + l2 + l3 + l4 + l5 + l6 + l7 + l8) + l9 + []
  {
  }

  /** Dependency `i` sits on line `1 + i` of the dependency block. */
  lemma DependencyLineAt(deps: seq<string>, i: int)
    requires 0 <= i < |deps|
    ensures DependencyLines(deps)[1 + i] == "    " + deps[i] + " \\ "
  {
    var m := Map(deps, DependencyText);
    assert DependencyLines(deps) == [AptGetInstall] + m + [AptGetClean, ""];
    LineOfSection([AptGetInstall], m, [AptGetClean, ""], DependencyLines(deps), 1, i);
  }

  /** The fixed lines around the dependencies of a non-empty dependency block. */
  lemma DependencyBlockEnds(deps: seq<string>)
    requires |deps| > 0
    ensures |DependencyLines(deps)| == |deps| + 3
    ensures DependencyLines(deps)[0] == AptGetInstall
    ensures DependencyLines(deps)[|deps| + 1] == AptGetClean
    ensures DependencyLines(deps)[|deps| + 2] == ""
  {
  }

  lemma DocHead(c: Config)
    ensures HeadLayout(c, DocLines(c))
  {
    DocLineCount(c);
    DocFrom(c);
    if |c.dependencies| > 0 {
      DocDependencies(c);
    }
  }

  lemma DocFrom(c: Config)
    ensures 2 <= |DocLines(c)|
    ensures DocLines(c)[0] == "FROM " + c.baseImage && DocLines(c)[1] == ""
  {
    var l1, l2 := FromLines(c.baseImage), DependencyLines(c.dependencies);
    var l3, l4, l5 := PreRunLines(c.preRunCommands), UserLines(c.user), CopyLines(c.copyFiles);
    var l6, l7 := BuildLines(c.buildCommand), ExposeLines(c.exposePort, c.appPort);
    var l8, l9 := WorkdirLines(c.workspace), EntrypointLines(c.entrypoint);
    var doc := DocLines(c);
    CutAtFirst(l1, l2, l3, l4, l5, l6, l7, l8, l9, doc);
    LineOfSection([], l1, l2 + l3 + l4 + l5 + l6 + l7 + l8 + l9, doc, 0, 0);
    LineOfSection([], l1, l2 + l3 + l4 + l5 + l6 + l7 + l8 + l9, doc, 0, 1);
  }

  lemma DocDependencies(c: Config)
    requires |c.dependencies| > 0
    ensures var n, doc := |c.dependencies|, DocLines(c);
            && 5 + n <= |doc|
            && doc[2] == AptGetInstall
            && (forall i :: 0 <= i < n ==> doc[3 + i] == "    " + c.dependencies[i] + " \\ ")
            && doc[3 + n] == AptGetClean
            && doc[4 + n] == ""
  {
    var l1, l2 := FromLines(c.baseImage), DependencyLines(c.dependencies);
    var l3, l4, l5 := PreRunLines(c.preRunCommands), UserLines(c.user), CopyLines(c.copyFiles);
    var l6, l7 := BuildLines(c.buildCommand), ExposeLines(c.exposePort, c.appPort);
    var l8, l9 := WorkdirLines(c.workspace), EntrypointLines(c.entrypoint);
    var doc := DocLines(c);
    var n := |c.dependencies|;
    var post := l3 + l4 + l5 + l6 + l7 + l8 + l9;
    CutAtSecond(l1, l2, l3, l4, l5, l6, l7, l8, l9, doc);
    DependencyBlockEnds(c.dependencies);
    LineOfSection(l1, l2, post, doc, 2, 0);
    forall i | 0 <= i < n
      ensures doc[3 + i] == "    " + c.dependencies[i] + " \\ "
    {
      LineOfSection(l1, l2, post, doc, 2, 1 + i);
      DependencyLineAt(c.dependencies, i);
    }
    LineOfSection(l1, l2, post, doc, 2, 1 + n);
    LineOfSection(l1, l2, post, doc, 2, 2 + n);
  }

  lemma DocPreRun(c: Config)
    ensures PreRunLayout(c, DocLines(c))
  {
    DocLineCount(c);
    PreRunStartSize(c);
    var l1, l2 := FromLines(c.baseImage), DependencyLines(c.dependencies);
    var l3, l4, l5 := PreRunLines(c.preRunCommands), UserLines(c.user), CopyLines(c.copyFiles);
    var l6, l7 := BuildLines(c.buildCommand), ExposeLines(c.exposePort, c.appPort);
    var l8, l9 := WorkdirLines(c.workspace), EntrypointLines(c.entrypoint);
    var doc := DocLines(c);
    var n := |c.preRunCommands|;
    if n > 0 {
      var pre, post := l1 + l2, l4 + l5 + l6 + l7 + l8 + l9;
      CutAtThird(l1, l2, l3, l4, l5, l6, l7, l8, l9, doc);
      var m := Map(c.preRunCommands, RunText);
      assert l3 == m + [""];
      forall i | 0 <= i < n
        ensures doc[PreRunStart(c) + i] == "RUN " + c.preRunCommands[i]
      {
        LineOfSection(pre, l3, post, doc, PreRunStart(c), i);
        assert l3[i] == m[i];
      }
      LineOfSection(pre, l3, post, doc, PreRunStart(c), n);
    }
  }

  lemma DocUser(c: Config)
    ensures UserLayout(c, DocLines(c))
  {
    DocLineCount(c);
    UserStartSize(c);
    var l1, l2 := FromLines(c.baseImage), DependencyLines(c.dependencies);
    var l3, l4, l5 := PreRunLines(c.preRunCommands), UserLines(c.user), CopyLines(c.copyFiles);
    var l6, l7 := BuildLines(c.buildCommand), ExposeLines(c.exposePort, c.appPort);
    var l8, l9 := WorkdirLines(c.workspace), EntrypointLines(c.entrypoint);
    var doc := DocLines(c);
    if c.user != "" {
      var pre, post := l1 + l2 + l3, l5 + l6 + l7 + l8 + l9;
      CutAtFourth(l1, l2, l3, l4, l5, l6, l7, l8, l9, doc);
      LineOfSection(pre, l4, post, doc, UserStart(c), 0);
      LineOfSection(pre, l4, post, doc, UserStart(c), 1);
    }
  }

  lemma DocCopy(c: Config)
    ensures CopyLayout(c, DocLines(c))
  {
    DocLineCount(c);
    CopyStartSize(c);
    var l1, l2 := FromLines(c.baseImage), DependencyLines(c.dependencies);
    var l3, l4, l5 := PreRunLines(c.preRunCommands), UserLines(c.user), CopyLines(c.copyFiles);
    var l6, l7 := BuildLines(c.buildCommand), ExposeLines(c.exposePort, c.appPort);
    var l8, l9 := WorkdirLines(c.workspace), EntrypointLines(c.entrypoint);
    var doc := DocLines(c);
    var pre, post := l1 + l2 + l3 + l4, l6 + l7 + l8 + l9;
    CutAtFifth(l1, l2, l3, l4, l5, l6, l7, l8, l9, doc);
    var f := |c.copyFiles|;
    if f == 0 {
      LineOfSection(pre, l5, post, doc, CopyStart(c), 0);
      LineOfSection(pre, l5, post, doc, CopyStart(c), 1);
    } else {
      var m := Map(c.copyFiles, CopyText);
      assert l5 == m + [""];
      forall i | 0 <= i < f
        ensures doc[CopyStart(c) + i] == "COPY " + c.copyFiles[i].origin + " " + c.copyFiles[i].destination
      {
        LineOfSection(pre, l5, post, doc, CopyStart(c), i);
        assert l5[i] == m[i];
      }
      LineOfSection(pre, l5, post, doc, CopyStart(c), f);
    }
  }

  lemma DocTail(c: Config)
    ensures TailLayout(c, DocLines(c))
  {
    DocLineCount(c);
    TailStartSizes(c);
    var l1, l2 := FromLines(c.baseImage), DependencyLines(c.dependencies);
    var l3, l4, l5 := PreRunLines(c.preRunCommands), UserLines(c.user), CopyLines(c.copyFiles);
    var l6, l7 := BuildLines(c.buildCommand), ExposeLines(c.exposePort, c.appPort);
    var l8, l9 := WorkdirLines(c.workspace), EntrypointLines(c.entrypoint);
    var doc := DocLines(c);
    if c.buildCommand != "" {
      CutAtSixth(l1, l2, l3, l4, l5, l6, l7, l8, l9, doc);
      LineOfSection(l1 + l2 + l3 + l4 + l5, l6, l7 + l8 + l9, doc, BuildStart(c), 0);
      LineOfSection(l1 + l2 + l3 + l4 + l5, l6, l7 + l8 + l9, doc, BuildStart(c), 1);
    }
    if c.exposePort && c.appPort > 0 {
      CutAtSeventh(l1, l2, l3, l4, l5, l6, l7, l8, l9, doc);
      LineOfSection(l1 + l2 + l3 + l4 + l5 + l6, l7, l8 + l9, doc, ExposeStart(c), 0);
      LineOfSection(l1 + l2 + l3 + l4 + l5 + l6, l7, l8 + l9, doc, ExposeStart(c), 1);
    }
    CutAtEighth(l1, l2, l3, l4, l5, l6, l7, l8, l9, doc);
    LineOfSection(l1 + l2 + l3 + l4 + l5 + l6 + l7, l8, l9, doc, WorkdirStart(c), 0);
    LineOfSection(l1 + l2 + l3 + l4 + l5 + l6 + l7, l8, l9, doc, WorkdirStart(c), 1);
    if c.entrypoint != "" {
      CutAtNinth(l1, l2, l3, l4, l5, l6, l7, l8, l9, doc);
      LineOfSection(l1 + l2 + l3 + l4 + l5 + l6 + l7 + l8, l9, [], doc, WorkdirStart(c) + 2, 0);
    }
  }

  /**
   * The layout of the generated text: with single-line fields, its lines
   * are laid out section by section as the predicates above say.
   */
  lemma OutputLayout(c: Config)
    requires SingleLineFields(c)
    ensures HeadLayout(c, SplitLines(Render(c)))
    ensures PreRunLayout(c, SplitLines(Render(c)))
    ensures UserLayout(c, SplitLines(Render(c)))
    ensures CopyLayout(c, SplitLines(Render(c)))
    ensures TailLayout(c, SplitLines(Render(c)))
  {
    LinesOfRender(c);
    DocHead(c);
    DocPreRun(c);
    DocUser(c);
    DocCopy(c);
    DocTail(c);
  }
}
