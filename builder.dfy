/**
 * The Dockerfile text assembler of package `builder`: the configuration
 * record, its three append-only mutators, and the generator that writes the
 * Dockerfile section by section into a string buffer.
 */
module Builder {
  import opened Wrappers
  import opened Format

  /** One COPY instruction: a path in the build context and its path in the image. */
  datatype CopyInstruction = CopyInstruction(origin: string, destination: string)

  /** The value of a `DockerfileConfig` record, field for field. */
  datatype Config = Config(
    baseImage: string,
    appPort: int,
    dependencies: seq<string>,
    copyFiles: seq<CopyInstruction>,
    buildCommand: string,
    preRunCommands: seq<string>,
    runCommand: string,
    entrypoint: string,
    workspace: string,
    exposePort: bool,
    user: string)

  /** The zero value of the record: every string empty, every list empty, no port. */
  const EmptyConfig := Config("", 0, [], [], "", [], "", "", "", false, "")

  /** The one error the generator reports. */
  datatype Error = EmptyBaseImage {
    function Message(): string
    {
      "base image cannot be empty"
    }
  }

  // The fixed lines of the dependency block and of the default COPY, without
  // their line terminators. The cleanup line is one literal in the source;
  // it is written here as three shorter literals (its two commands and the
  // cache path) because the verifier reads the characters of short literals
  // cheaply and of one long literal only at great cost. The value is the same.
  const AptGetInstall := "RUN apt-get update && apt-get install -y \\"
  const AptGetClean := "    && apt-get clean" + " && rm -rf" + " /var/lib/apt/lists/*"
  const CopyAll := "COPY . ."

  /**
   * What a `for range` loop that writes `line(x)` for each `x` of `xs` adds
   * to the buffer: the lines in list order.
   */
  function Each<T>(xs: seq<T>, line: T -> string): string
  {
    if xs == [] then "" else Each(xs[..|xs| - 1], line) + line(xs[|xs| - 1])
  }

  // One function per section of the generated text, in the order the
  // generator writes them. Each returns everything the section writes,
  // including its trailing blank line, or "" when the section is skipped.

  function FromSection(image: string): string
  {
    "FROM " + image + "\n" + "\n"
  }

  /** One dependency inside the install command: indented, with a continuation backslash, a space and a newline. */
  function DependencyLine(dep: string): string
  {
    "    " + dep + " \\ \n"
  }

  function DependencySection(deps: seq<string>): string
  {
    if |deps| > 0 then
      (AptGetInstall + "\n") + Each(deps, DependencyLine) + (AptGetClean + "\n") + "\n"
    else ""
  }

  function RunLine(cmd: string): string
  {
    "RUN " + cmd + "\n"
  }

  function PreRunSection(cmds: seq<string>): string
  {
    if |cmds| > 0 then Each(cmds, RunLine) + "\n" else ""
  }

  function UserSection(user: string): string
  {
    if user != "" then ("USER " + user + "\n") + "\n" else ""
  }

  function CopyLine(file: CopyInstruction): string
  {
    "COPY " + file.origin + " " + file.destination + "\n"
  }

  function CopySection(files: seq<CopyInstruction>): string
  {
    if |files| > 0 then Each(files, CopyLine) + "\n" else (CopyAll + "\n") + "\n"
  }

  function BuildSection(cmd: string): string
  {
    if cmd != "" then RunLine(cmd) + "\n" else ""
  }

  function ExposeSection(expose: bool, port: int): string
  {
    if expose && port > 0 then ("EXPOSE " + DecimalString(port) + "\n") + "\n" else ""
  }

  function WorkdirSection(workspace: string): string
  {
    ("WORKDIR " + workspace + "\n") + "\n"
  }

  function EntrypointSection(entrypoint: string): string
  {
    if entrypoint != "" then "ENTRYPOINT [\"" + entrypoint + "\"]\n" else ""
  }

  /** The Dockerfile text for `c`, the sections concatenated in their fixed order. */
  function Render(c: Config): string
  {
    FromSection(c.baseImage)
    + DependencySection(c.dependencies)
    + PreRunSection(c.preRunCommands)
    + UserSection(c.user)
    + CopySection(c.copyFiles)
    + BuildSection(c.buildCommand)
    + ExposeSection(c.exposePort, c.appPort)
    + WorkdirSection(c.workspace)
    + EntrypointSection(c.entrypoint)
  }

  /**
   * The generator as a function: the error when the base image is empty,
   * otherwise a Dockerfile that starts with the FROM line and a blank line.
   */
  function Generate(c: Config): (r: Result<string, Error>)
    ensures r.Err? <==> c.baseImage == ""
    ensures r.Err? ==> r.error == EmptyBaseImage
    ensures r.Ok? ==> "FROM " + c.baseImage + "\n" + "\n" <= r.value
  {
    if c.baseImage == "" then Err(EmptyBaseImage) else Ok(Render(c))
  }

  /** `suffix` is the end of `s`. */
  predicate EndsWith(s: string, suffix: string)
  {
    |suffix| <= |s| && s[|s| - |suffix|..] == suffix
  }

  /**
   * The Dockerfile ends with the ENTRYPOINT line when an entrypoint is set,
   * with no blank line after it; otherwise it ends with the WORKDIR line
   * and its blank line.
   */
  lemma RenderEnding(c: Config)
    ensures c.entrypoint != "" ==> EndsWith(Render(c), "ENTRYPOINT [\"" + c.entrypoint + "\"]\n")
    ensures c.entrypoint == "" ==> EndsWith(Render(c), "WORKDIR " + c.workspace + "\n" + "\n")
  {
    var body := FromSection(c.baseImage) + DependencySection(c.dependencies) + PreRunSection(c.preRunCommands)
                + UserSection(c.user) + CopySection(c.copyFiles) + BuildSection(c.buildCommand)
                + ExposeSection(c.exposePort, c.appPort);
    var w, e := WorkdirSection(c.workspace), EntrypointSection(c.entrypoint);
    assert Render(c) == body + w + e;
    if c.entrypoint != "" {
      assert (body + w + e)[|body + w|..] == e;
    } else {
      assert body + w + e == body + w;
      assert (body + w)[|body|..] == w;
    }
  }

  // The generator's writes, one method per section. Each appends to the
  // buffer exactly what the section function says the section contributes.

  /**
   * A `for range` loop over `xs` that writes `line(x)` into the buffer for
   * each element: the buffer grows by exactly the lines of `xs`, in order.
   */
  method WriteEach<T>(buffer: string, xs: seq<T>, line: T -> string) returns (out: string)
    ensures out == buffer + Each(xs, line)
  {
    out := buffer;
    for i := 0 to |xs|
      invariant out == buffer + Each(xs[..i], line)
    {
      assert xs[..i + 1][..i] == xs[..i];
      out := out + line(xs[i]);
    }
    assert xs[..|xs|] == xs;
  }

  method WriteFrom(buffer: string, image: string) returns (out: string)
    ensures out == buffer + FromSection(image)
  {
    out := buffer + ("FROM " + image + "\n");
    out := out + "\n";
  }

  method WriteDependencies(buffer: string, deps: seq<string>) returns (out: string)
    ensures out == buffer + DependencySection(deps)
  {
    out := buffer;
    if |deps| > 0 {
      out := out + (AptGetInstall + "\n");
      out := WriteEach(out, deps, DependencyLine);
      out := out + (AptGetClean + "\n");
      out := out + "\n";
    }
  }

  method WritePreRun(buffer: string, cmds: seq<string>) returns (out: string)
    ensures out == buffer + PreRunSection(cmds)
  {
    out := buffer;
    if |cmds| > 0 {
      out := WriteEach(out, cmds, RunLine);
      out := out + "\n";
    }
  }

  method WriteUser(buffer: string, user: string) returns (out: string)
    ensures out == buffer + UserSection(user)
  {
    out := buffer;
    if user != "" {
      out := out + ("USER " + user + "\n");
      out := out + "\n";
    }
  }

  method WriteCopies(buffer: string, files: seq<CopyInstruction>) returns (out: string)
    ensures out == buffer + CopySection(files)
  {
    out := buffer;
    if |files| > 0 {
      out := WriteEach(out, files, CopyLine);
      out := out + "\n";
    } else {
      out := out + (CopyAll + "\n");
      out := out + "\n";
    }
  }

  method WriteBuild(buffer: string, cmd: string) returns (out: string)
    ensures out == buffer + BuildSection(cmd)
  {
    out := buffer;
    if cmd != "" {
      out := out + RunLine(cmd);
      out := out + "\n";
    }
  }

  method WriteExpose(buffer: string, expose: bool, port: int) returns (out: string)
    ensures out == buffer + ExposeSection(expose, port)
  {
    out := buffer;
    if expose && port > 0 {
      out := out + ("EXPOSE " + DecimalString(port) + "\n");
      out := out + "\n";
    }
  }

  method WriteWorkdir(buffer: string, workspace: string) returns (out: string)
    ensures out == buffer + WorkdirSection(workspace)
  {
    out := buffer + ("WORKDIR " + workspace + "\n");
    out := out + "\n";
  }

  method WriteEntrypoint(buffer: string, entrypoint: string) returns (out: string)
    ensures out == buffer + EntrypointSection(entrypoint)
  {
    out := buffer;
    if entrypoint != "" {
      out := out + ("ENTRYPOINT [\"" + entrypoint + "\"]\n");
    }
  }

  /** A `DockerfileConfig` record, updated in place through a pointer. */
  class DockerfileConfig {
    var baseImage: string
    var appPort: int
    var dependencies: seq<string>
    var copyFiles: seq<CopyInstruction>
    var buildCommand: string
    var preRunCommands: seq<string>
    var runCommand: string
    var entrypoint: string
    var workspace: string
    var exposePort: bool
    var user: string

    /** The record's current value. */
    function Value(): Config
      reads this
    {
      Config(baseImage, appPort, dependencies, copyFiles, buildCommand,
             preRunCommands, runCommand, entrypoint, workspace, exposePort, user)
    }

    /** A record built from a composite literal. */
    constructor (c: Config)
      ensures Value() == c
    {
      baseImage, appPort, dependencies, copyFiles := c.baseImage, c.appPort, c.dependencies, c.copyFiles;
      buildCommand, preRunCommands, runCommand := c.buildCommand, c.preRunCommands, c.runCommand;
      entrypoint, workspace, exposePort, user := c.entrypoint, c.workspace, c.exposePort, c.user;
    }

    method AddPreRunCommand(command: string)
      modifies this
      ensures preRunCommands == old(preRunCommands) + [command]
      ensures Value() == old(Value()).(preRunCommands := preRunCommands)
    {
      preRunCommands := preRunCommands + [command];
    }

    method AddCopyFile(file: CopyInstruction)
      modifies this
      ensures copyFiles == old(copyFiles) + [file]
      ensures Value() == old(Value()).(copyFiles := copyFiles)
    {
      copyFiles := copyFiles + [file];
    }

    method AddDependency(dependency: string)
      modifies this
      ensures dependencies == old(dependencies) + [dependency]
      ensures Value() == old(Value()).(dependencies := dependencies)
    {
      dependencies := dependencies + [dependency];
    }

    /**
     * Writes the Dockerfile into a buffer, section after section. Returns the
     * text and no error, or the empty text and the error when the base image
     * is empty.
     */
    method GenerateDockerfileContent() returns (content: string, err: Option<Error>)
      ensures err == None <==> baseImage != ""
      ensures err != None ==> content == "" && err == Some(EmptyBaseImage)
      ensures err == None ==> Generate(Value()) == Ok(content)
    {
      if baseImage == "" {
        return "", Some(EmptyBaseImage);
      }
      var buffer := WriteFrom("", baseImage);
      assert buffer == FromSection(baseImage);
      buffer := WriteDependencies(buffer, dependencies);
      buffer := WritePreRun(buffer, preRunCommands);
      buffer := WriteUser(buffer, user);
      buffer := WriteCopies(buffer, copyFiles);
      buffer := WriteBuild(buffer, buildCommand);
      buffer := WriteExpose(buffer, exposePort, appPort);
      buffer := WriteWorkdir(buffer, workspace);
      buffer := WriteEntrypoint(buffer, entrypoint);
      return buffer, None;
    }
  }
}
