/**
 * The package's test cases, as methods whose contracts state the outcome
 * each test expects: a full configuration, a minimal one, the missing base
 * image, and one append through each mutator.
 */
module Scenarios {
  import opened Wrappers
  import opened Format
  import opened Lines
  import opened Builder
  import opened DocumentLines

  /** The configuration of the full test: every field set. */
  const FullConfig := Config(
    "ubuntu:latest", 8080, ["git", "curl"], [CopyInstruction("source", "dest")],
    "go build -o myapp", ["chmod +x myapp"], "./myapp", "/bin/bash", "/app", true, "testuser")

  /** The lines the full configuration yields, section by section. */
  const FullConfigLines :=
    ["FROM ubuntu:latest", ""]
    + [AptGetInstall, "    git \\ ", "    curl \\ ", AptGetClean, ""]
    + ["RUN chmod +x myapp", ""]
    + ["USER testuser", ""]
    + ["COPY source dest", ""]
    + ["RUN go build -o myapp", ""]
    + ["EXPOSE 8080", ""]
    + ["WORKDIR /app", ""]
    + ["ENTRYPOINT [\"/bin/bash\"]"]

  lemma FullConfigHead()
    ensures FromLines(FullConfig.baseImage) == ["FROM ubuntu:latest", ""]
    ensures DependencyLines(FullConfig.dependencies) == [AptGetInstall, "    git \\ ", "    curl \\ ", AptGetClean, ""]
  {
    var c := FullConfig;
    assert "FROM " + "ubuntu:latest" == "FROM ubuntu:latest";
    assert DependencyText("git") == "    git \\ ";
    assert DependencyText("curl") == "    curl \\ ";
    assert Map(c.dependencies, DependencyText) == ["    git \\ ", "    curl \\ "];
  }

  lemma FullConfigPreRun()
    ensures PreRunLines(FullConfig.preRunCommands) == ["RUN chmod +x myapp", ""]
  {
    assert RunText("chmod +x myapp") == "RUN chmod +x myapp";
    assert Map(FullConfig.preRunCommands, RunText) == ["RUN chmod +x myapp"];
  }

  lemma FullConfigUser()
    ensures UserLines(FullConfig.user) == ["USER testuser", ""]
  {
    assert "USER " + "testuser" == "USER testuser";
  }

  lemma FullConfigCopy()
    ensures CopyLines(FullConfig.copyFiles) == ["COPY source dest", ""]
  {
    assert CopyText(CopyInstruction("source", "dest")) == "COPY source dest";
    assert Map(FullConfig.copyFiles, CopyText) == ["COPY source dest"];
  }

  /** Port 8080 in decimal. */
  lemma FullConfigPort()
    ensures DecimalString(8080) == "8080"
  {
    assert DecimalString(8) == "8";
    assert DecimalString(80) == "80";
    assert DecimalString(808) == "808";
  }

  lemma FullConfigBuild()
    ensures BuildLines(FullConfig.buildCommand) == ["RUN go build -o myapp", ""]
  {
    assert "RUN " + "go build -o myapp" == "RUN go build -o myapp";
  }

  lemma FullConfigExpose()
    ensures ExposeLines(FullConfig.exposePort, FullConfig.appPort) == ["EXPOSE 8080", ""]
  {
    FullConfigPort();
    assert "EXPOSE " + "8080" == "EXPOSE 8080";
  }

  lemma FullConfigTail()
    ensures WorkdirLines(FullConfig.workspace) == ["WORKDIR /app", ""]
    ensures EntrypointLines(FullConfig.entrypoint) == ["ENTRYPOINT [\"/bin/bash\"]"]
  {
    assert "WORKDIR " + "/app" == "WORKDIR /app";
    assert "ENTRYPOINT [\"" + "/bin/bash" + "\"]" == "ENTRYPOINT [\"/bin/bash\"]";
  }

  /** The full configuration's document has exactly the expected lines. */
  lemma FullConfigDocLines()
    ensures DocLines(FullConfig) == FullConfigLines
  {
    FullConfigHead();
    FullConfigPreRun();
    FullConfigUser();
    FullConfigCopy();
    FullConfigBuild();
    FullConfigExpose();
    FullConfigTail();
  }

  /**
   * The full configuration generates without error, and its text has
   * exactly the expected lines: FROM, the install block with both
   * dependencies, the pre-run command, USER, the COPY pair, the build
   * command, EXPOSE 8080, WORKDIR and the ENTRYPOINT.
   */
  method FullConfigScenario() returns (content: string, err: Option<Error>)
    ensures err == None
    ensures content == Unlines(FullConfigLines)
  {
    var config := new DockerfileConfig(FullConfig);
    content, err := config.GenerateDockerfileContent();
    assert content == Render(FullConfig);
    RenderAsLines(FullConfig);
    FullConfigDocLines();
  }

  /** The configuration of the minimal test: only the base image set. */
  const MinimalConfig := EmptyConfig.(baseImage := "alpine:latest")

  /** FROM, the `COPY . .` default and an empty WORKDIR. */
  const MinimalConfigLines := ["FROM alpine:latest", "", CopyAll, "", "WORKDIR ", ""]

  lemma MinimalConfigDocLines()
    ensures DocLines(MinimalConfig) == MinimalConfigLines
  {
    assert "FROM " + "alpine:latest" == "FROM alpine:latest";
    assert "WORKDIR " + "" == "WORKDIR ";
  }

  /** The minimal configuration generates without error: FROM, the `COPY . .` default and an empty WORKDIR. */
  method MinimalConfigScenario() returns (content: string, err: Option<Error>)
    ensures err == None
    ensures content == Unlines(MinimalConfigLines)
  {
    var config := new DockerfileConfig(MinimalConfig);
    content, err := config.GenerateDockerfileContent();
    assert content == Render(MinimalConfig);
    RenderAsLines(MinimalConfig);
    MinimalConfigDocLines();
  }

  /** The zero record: no text, and the empty-base-image error with its message. */
  method NoBaseImageScenario() returns (content: string, err: Option<Error>)
    ensures err.Some? && err.value.Message() == "base image cannot be empty"
    ensures content == ""
  {
    var config := new DockerfileConfig(EmptyConfig);
    content, err := config.GenerateDockerfileContent();
  }

  /** Adding a dependency to a record without any leaves exactly that one. */
  method AddDependencyScenario() returns (dependencies: seq<string>)
    ensures dependencies == ["new-dep"]
  {
    var config := new DockerfileConfig(EmptyConfig.(baseImage := "test"));
    config.AddDependency("new-dep");
    dependencies := config.dependencies;
  }

  /** Adding a copy pair to a record without any leaves exactly that one. */
  method AddCopyFileScenario() returns (copyFiles: seq<CopyInstruction>)
    ensures copyFiles == [CopyInstruction("o", "d")]
  {
    var config := new DockerfileConfig(EmptyConfig.(baseImage := "test"));
    config.AddCopyFile(CopyInstruction("o", "d"));
    copyFiles := config.copyFiles;
  }

  /** Adding a pre-run command to a record without any leaves exactly that one. */
  method AddPreRunCommandScenario() returns (preRunCommands: seq<string>)
    ensures preRunCommands == ["echo 'hello'"]
  {
    var config := new DockerfileConfig(EmptyConfig.(baseImage := "test"));
    config.AddPreRunCommand("echo 'hello'");
    preRunCommands := config.preRunCommands;
  }
}
