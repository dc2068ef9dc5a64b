/**
 * Which instructions the generated Dockerfile holds. Every line is blank or
 * starts with one of a few fixed prefixes, and the optional instructions
 * (the dependency block, USER, EXPOSE and ENTRYPOINT) appear exactly when
 * the configuration asks for them.
 */
module Instructions {
  import opened Builder
  import opened Lines
  import opened Format
  import opened DocumentLines
  import opened Layout

  /** Some line of `lines` starts with `prefix`. */
  predicate HasLineStarting(lines: seq<string>, prefix: string)
  {
    exists l :: l in lines && prefix <= l
  }

  /**
   * The prefixes a line of the document for `c` can start with. A line is
   * indented by four spaces only inside a dependency block, and starts with
   * USER, EXPOSE or ENTRYPOINT only when the field behind it is set.
   */
  predicate LineShape(c: Config, l: string)
  {
    || l == ""
    || "FROM " <= l
    || "RUN " <= l
    || "COPY " <= l
    || "WORKDIR " <= l
    || (|c.dependencies| > 0 && "    " <= l)
    || (c.user != "" && "USER " <= l)
    || (c.exposePort && c.appPort > 0 && "EXPOSE " <= l)
    || (c.entrypoint != "" && "ENTRYPOINT " <= l)
  }

  /** A line that starts with `prefix` has at least its length and agrees with it on the first two characters. */
  lemma LeadingChars(prefix: string, l: string)
    requires |prefix| >= 2
    ensures prefix <= l ==> |prefix| <= |l| && l[0] == prefix[0] && l[1] == prefix[1]
  {
  }

  /** Where a line of a given shape can come from: the optional prefixes need their fields set. */
  lemma ShapeSources(c: Config, l: string)
    requires LineShape(c, l)
    ensures "USER " <= l ==> c.user != ""
    ensures "EXPOSE " <= l ==> c.exposePort && c.appPort > 0
    ensures "ENTRYPOINT " <= l ==> c.entrypoint != ""
    ensures "    " <= l ==> |c.dependencies| > 0
  {
    LeadingChars("FROM ", l);
    LeadingChars("RUN ", l);
    LeadingChars("COPY ", l);
    LeadingChars("WORKDIR ", l);
    LeadingChars("    ", l);
    LeadingChars("USER ", l);
    LeadingChars("EXPOSE ", l);
    LeadingChars("ENTRYPOINT ", l);
  }

  /** Membership in the nine sections of the document, grouped as the shape lemmas group them. */
  lemma MemberOfSections(l1: seq<string>, l2: seq<string>, l3: seq<string>, l4: seq<string>, l5: seq<string>,
                         l6: seq<string>, l7: seq<string>, l8: seq<string>, l9: seq<string>, l: string)
    requires l in l1 + l2 + l3 + l4 + l5 + l6 + l7 + l8 + l9
    ensures l in l1 + l2 || l in l3 + l4 + l5 || l in l6 + l7 + l8 + l9
  {
  }

  /** A string starts with what is concatenated in front of it. */
  lemma StartsWithFront(prefix: string, a: string, b: string)
    ensures prefix <= prefix + a && prefix <= prefix + a + b
  {
    assert (prefix + a)[..|prefix|] == prefix;
    assert (prefix + a + b)[..|prefix|] == prefix;
  }

  /** If every `f(x)` starts with `prefix`, every string of `Map(xs, f)` does. */
  lemma MapStartsWith<T>(xs: seq<T>, f: T -> string, prefix: string)
    requires forall i :: 0 <= i < |xs| ==> prefix <= f(xs[i])
    ensures forall l :: l in Map(xs, f) ==> prefix <= l
  {
    forall l | l in Map(xs, f)
      ensures prefix <= l
    {
      var i :| 0 <= i < |xs| && Map(xs, f)[i] == l;
    }
  }

  /** The install line is a RUN instruction and the cleanup line is indented. */
  lemma FixedLinePrefixes()
    ensures "RUN " <= AptGetInstall
    ensures "    " <= AptGetClean
  {
  }

  lemma ShapesOfHead(c: Config)
    ensures forall l :: l in FromLines(c.baseImage) + DependencyLines(c.dependencies) ==> LineShape(c, l)
  {
    var deps := c.dependencies;
    if |deps| > 0 {
      forall i | 0 <= i < |deps|
        ensures "    " <= DependencyText(deps[i])
      {
        StartsWithFront("    ", deps[i], " \\ ");
      }
      MapStartsWith(deps, DependencyText, "    ");
      FixedLinePrefixes();
    }
    StartsWithFront("FROM ", c.baseImage, "");
  }

  lemma ShapesOfMiddle(c: Config)
    ensures forall l :: l in PreRunLines(c.preRunCommands) + UserLines(c.user) + CopyLines(c.copyFiles) ==> LineShape(c, l)
  {
    forall i | 0 <= i < |c.preRunCommands|
      ensures "RUN " <= RunText(c.preRunCommands[i])
    {
      StartsWithFront("RUN ", c.preRunCommands[i], "");
    }
    MapStartsWith(c.preRunCommands, RunText, "RUN ");
    forall i | 0 <= i < |c.copyFiles|
      ensures "COPY " <= CopyText(c.copyFiles[i])
    {
      var f := c.copyFiles[i];
      StartsWithFront("COPY ", f.origin + " ", f.destination);
      assert CopyText(f) == "COPY " + (f.origin + " ") + f.destination;
    }
    MapStartsWith(c.copyFiles, CopyText, "COPY ");
    StartsWithFront("USER ", c.user, "");
    StartsWithFront("COPY ", ". .", "");
    assert "COPY " + ". ." == CopyAll;
  }

  lemma ShapesOfTail(c: Config)
    ensures forall l :: (l in BuildLines(c.buildCommand) + ExposeLines(c.exposePort, c.appPort)
                          + WorkdirLines(c.workspace) + EntrypointLines(c.entrypoint)) ==> LineShape(c, l)
  {
    assert "RUN " <= RunText(c.buildCommand);
    if c.exposePort && c.appPort > 0 {
      assert "EXPOSE " <= "EXPOSE " + DecimalString(c.appPort);
    }
    assert "WORKDIR " <= "WORKDIR " + c.workspace;
    assert "ENTRYPOINT " <= "ENTRYPOINT " + ("[\"" + c.entrypoint + "\"]");
  }

  /** Every line of the document is blank or starts with one of the prefixes `LineShape` allows. */
  lemma DocLineShapes(c: Config)
    ensures forall l :: l in DocLines(c) ==> LineShape(c, l)
  {
    ShapesOfHead(c);
    ShapesOfMiddle(c);
    ShapesOfTail(c);
    forall l | l in DocLines(c)
      ensures LineShape(c, l)
    {
      MemberOfSections(FromLines(c.baseImage), DependencyLines(c.dependencies),
                       PreRunLines(c.preRunCommands), UserLines(c.user), CopyLines(c.copyFiles),
                       BuildLines(c.buildCommand), ExposeLines(c.exposePort, c.appPort),
                       WorkdirLines(c.workspace), EntrypointLines(c.entrypoint), l);
    }
  }

  /** Lines that start with a prefix only `ShapeSources`-permitted fields produce. */
  lemma DocLineSources(c: Config)
    ensures forall l :: l in DocLines(c) ==>
      && ("USER " <= l ==> c.user != "")
      && ("EXPOSE " <= l ==> c.exposePort && c.appPort > 0)
      && ("ENTRYPOINT " <= l ==> c.entrypoint != "")
      && ("    " <= l ==> |c.dependencies| > 0)
  {
    DocLineShapes(c);
    forall l | l in DocLines(c)
      ensures "USER " <= l ==> c.user != ""
      ensures "EXPOSE " <= l ==> c.exposePort && c.appPort > 0
      ensures "ENTRYPOINT " <= l ==> c.entrypoint != ""
      ensures "    " <= l ==> |c.dependencies| > 0
    {
      ShapeSources(c, l);
    }
  }

  /** A line at a known position that starts with `prefix` witnesses `HasLineStarting`. */
  lemma LineWitness(lines: seq<string>, k: int, prefix: string, rest: string)
    requires 0 <= k < |lines| && lines[k] == prefix + rest
    ensures HasLineStarting(lines, prefix)
  {
    assert lines[k] in lines && prefix <= lines[k];
  }

  /** In any list of lines with the document's layout, the instructions the configuration asks for are present. */
  lemma RequestedLines(c: Config, lines: seq<string>)
    requires HeadLayout(c, lines) && UserLayout(c, lines) && TailLayout(c, lines)
    ensures c.user != "" ==> HasLineStarting(lines, "USER ")
    ensures c.exposePort && c.appPort > 0 ==> HasLineStarting(lines, "EXPOSE ")
    ensures c.entrypoint != "" ==> HasLineStarting(lines, "ENTRYPOINT ")
    ensures |c.dependencies| > 0 ==> HasLineStarting(lines, "    ")
    ensures "FROM " + c.baseImage in lines
    ensures "WORKDIR " + c.workspace in lines
  {
    if c.user != "" {
      LineWitness(lines, UserStart(c), "USER ", c.user);
    }
    if c.exposePort && c.appPort > 0 {
      LineWitness(lines, ExposeStart(c), "EXPOSE ", DecimalString(c.appPort));
    }
    if c.entrypoint != "" {
      LineWitness(lines, |lines| - 1, "ENTRYPOINT ", "[\"" + c.entrypoint + "\"]");
    }
    if |c.dependencies| > 0 {
      LineWitness(lines, 3, "    ", c.dependencies[0] + " \\ ");
    }
    assert lines[WorkdirStart(c)] in lines;
  }

  /**
   * The instructions present in the document: a USER line exactly when a
   * user is set, an EXPOSE line exactly when the port is to be exposed and
   * positive, an ENTRYPOINT line exactly when an entrypoint is set, an
   * indented dependency line exactly when there are dependencies, and
   * always the FROM and WORKDIR lines.
   */
  lemma DocInstructions(c: Config)
    ensures HasLineStarting(DocLines(c), "USER ") <==> c.user != ""
    ensures HasLineStarting(DocLines(c), "EXPOSE ") <==> c.exposePort && c.appPort > 0
    ensures HasLineStarting(DocLines(c), "ENTRYPOINT ") <==> c.entrypoint != ""
    ensures HasLineStarting(DocLines(c), "    ") <==> |c.dependencies| > 0
    ensures "FROM " + c.baseImage in DocLines(c)
    ensures "WORKDIR " + c.workspace in DocLines(c)
  {
    DocLineSources(c);
    DocHead(c);
    DocUser(c);
    DocTail(c);
    RequestedLines(c, DocLines(c));
  }

  /** The instructions present in the generated text, when no field holds a line break. */
  lemma OutputInstructions(c: Config)
    requires SingleLineFields(c)
    ensures HasLineStarting(SplitLines(Render(c)), "USER ") <==> c.user != ""
    ensures HasLineStarting(SplitLines(Render(c)), "EXPOSE ") <==> c.exposePort && c.appPort > 0
    ensures HasLineStarting(SplitLines(Render(c)), "ENTRYPOINT ") <==> c.entrypoint != ""
    ensures HasLineStarting(SplitLines(Render(c)), "    ") <==> |c.dependencies| > 0
    ensures "FROM " + c.baseImage in SplitLines(Render(c))
    ensures "WORKDIR " + c.workspace in SplitLines(Render(c))
  {
    LinesOfRender(c);
    DocInstructions(c);
  }
}
