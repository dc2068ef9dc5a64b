# Dockerfile assembler of godockerfile, modelled in Dafny

The `builder` package of godockerfile turns a `DockerfileConfig` record into
the text of a Dockerfile. The record holds a base image, a port, lists of
dependencies, copy pairs and pre-run commands, and a handful of optional
strings. Three mutators append to the record's lists. `GenerateDockerfileContent`
writes the Dockerfile section by section into a `strings.Builder`:

1. `FROM` and the base image;
2. one `apt-get install` command for all dependencies;
3. one `RUN` line per pre-run command;
4. `USER`;
5. one `COPY` line per pair, or `COPY . .` when there are none;
6. the build `RUN` line;
7. `EXPOSE` with the port;
8. `WORKDIR`;
9. `ENTRYPOINT`.

Every section but the last is followed by a blank line. The generator fails
with "base image cannot be empty" when the base image is empty.

The model has these modules:

- `Builder` (`builder.dfy`)
  - The record is a class, `Builder.DockerfileConfig`, whose fields mirror
    the Go struct. Its value view is the datatype `Config`.
  - The mutators append to the list fields in place.
  - `GenerateDockerfileContent` is a method that accumulates a string buffer.
    It makes one writer call per section, and its three `for range` loops
    go through `WriteEach`, which carries a loop invariant. The method is
    proved equal to the pure specification `Render`/`Generate`, which is
    built from one function per section.
- `Format` (`format.dfy`) renders the port in decimal for `%d`. It proves
  the round trip with the decimal reading in both directions.
- `Lines` (`lines.dfy`) joins lines and splits text into lines. Splitting
  the text of lines that hold no line break gives those lines back. Joining
  the lines of a text that is empty or ends with a newline gives the text
  back.
- `DocumentLines` (`document_lines.dfy`) gives an independent reference
  definition: the document as a list of lines per section, `DocLines`.
  `Render(c)` is exactly those lines, each ended by a newline. When no field
  that reaches the output holds a line break, splitting the text gives them
  back.
- `Layout` (`layout.dfy`) states where each section's lines sit, and how
  many lines the document has.
- `Instructions` (`instructions.dfy`) shows that the optional instructions
  appear exactly when their fields ask for them.
- `Edits` (`edits.dfy`) states what each mutator does to the generated
  lines.
- `Scenarios` (`scenarios.dfy`) replays the cases of
  `dockerfile/dockerfile_test.go` against the class.

The generator always writes `WORKDIR`, even for an empty workspace
(`builder/builder.go:108-109`). It writes no header comment. It stores the
run command but never writes it (`builder/builder.go:24`).

## Model

| member | source | states |
|---|---|---|
| Builder.DockerfileConfig.constructor | builder/builder.go:17-29 | a record built from a composite literal holds exactly the given field values |
| Builder.DockerfileConfig.AddPreRunCommand | builder/builder.go:32-34 | the command is appended at the end of the pre-run list, the old commands are kept in order, and no other field changes |
| Builder.DockerfileConfig.AddCopyFile | builder/builder.go:37-39 | the pair is appended at the end of the copy list, the old pairs are kept in order, and no other field changes |
| Builder.DockerfileConfig.AddDependency | builder/builder.go:42-44 | the dependency is appended at the end of the dependency list, the old ones are kept in order, and no other field changes |
| Builder.DockerfileConfig.GenerateDockerfileContent | builder/builder.go:48-117 | the method fails exactly when the base image is empty, and then returns the empty text and the EmptyBaseImage error; otherwise it returns no error and the text the section-by-section specification gives for the record's current value |
| Builder.Generate | builder/builder.go:49-57 | the result is an error iff the base image is empty, and that error is EmptyBaseImage; a successful result starts with the FROM line and a blank line |
| Builder.RenderEnding | builder/builder.go:107-116 | the text ends with the ENTRYPOINT line, with no blank line after it, when an entrypoint is set; otherwise it ends with the WORKDIR line and a blank line |
| Builder.WriteEach | builder/builder.go:62-64 | a `for range` loop that writes one line per element adds exactly those lines to the buffer, in list order |
| Builder.WriteFrom | builder/builder.go:55-57 | the FROM line and a blank line are appended to the buffer |
| Builder.WriteDependencies | builder/builder.go:60-67 | when there are dependencies, the install line, one indented continuation line per dependency, the cleanup line and a blank line are appended; otherwise nothing is |
| Builder.WritePreRun | builder/builder.go:70-75 | one RUN line per pre-run command and then a blank line are appended, or nothing when there are no commands |
| Builder.WriteUser | builder/builder.go:78-81 | the USER line and a blank line are appended iff a user is set |
| Builder.WriteCopies | builder/builder.go:84-93 | one COPY line per pair and then a blank line are appended, or `COPY . .` and a blank line when there are no pairs |
| Builder.WriteBuild | builder/builder.go:96-99 | the build RUN line and a blank line are appended iff a build command is set |
| Builder.WriteExpose | builder/builder.go:102-105 | the EXPOSE line with the port in decimal and a blank line are appended iff exposing is requested and the port is positive |
| Builder.WriteWorkdir | builder/builder.go:108-109 | the WORKDIR line and a blank line are always appended |
| Builder.WriteEntrypoint | builder/builder.go:112-114 | the ENTRYPOINT line with the entrypoint in a one-element array is appended iff an entrypoint is set |
| Format.DecimalString | builder/builder.go:103 | the decimal form of a number is a non-empty string of digits, and it starts with 0 only for zero |
| Format.DecimalRoundTrip | builder/builder.go:103 | reading back the decimal form of a number gives the number |
| Format.DecimalCanonical | builder/builder.go:103 | every digit string without a leading zero is the decimal form of its value, so the rendering is onto the canonical digit strings |
| DocumentLines.RenderAsLines | builder/builder.go:55-114 | the generated text is exactly the document's lines, section by section in the fixed order, each ended by a newline |
| DocumentLines.LinesOfRender | builder/builder.go:55-114 | when no field that reaches the output holds a line break, splitting the generated text into lines gives the document's lines back |
| Layout.DocLineCount | builder/builder.go:55-114 | the document has 4 lines for FROM and WORKDIR, plus \|dependencies\|+3 when there are dependencies, \|pre-run commands\|+1 when there are any, 2 for USER, \|copy pairs\|+1 or 2 for COPY, 2 for the build command, 2 for EXPOSE, and 1 for ENTRYPOINT, each optional part only when present |
| Layout.DocHead | builder/builder.go:55-67 | line 0 is FROM with the base image and line 1 is blank; with dependencies, line 2 is the install line, line 3+i is dependency i indented and followed by the continuation, then come the cleanup line and a blank line |
| Layout.DocPreRun | builder/builder.go:70-75 | right after the dependency block, pre-run command i is on its own RUN line in list order, followed by a blank line |
| Layout.DocUser | builder/builder.go:78-81 | when a user is set, the USER line and a blank line follow the pre-run block |
| Layout.DocCopy | builder/builder.go:84-93 | after USER come `COPY . .` and a blank line when there are no pairs; otherwise pair i is on its own COPY line in list order, followed by one blank line and no fallback line |
| Layout.DocTail | builder/builder.go:96-114 | then come the build RUN line, the EXPOSE line and the always-present WORKDIR line, each followed by a blank line; the ENTRYPOINT line, when set, is the last line |
| Layout.OutputLayout | builder/builder.go:55-116 | with single-line fields, the lines of the generated text have all of the layout above |
| Instructions.DocLineShapes | builder/builder.go:55-114 | every line of the document is blank or starts with FROM, RUN, COPY or WORKDIR; it starts with four spaces, USER, EXPOSE or ENTRYPOINT only when the field behind that prefix is set |
| Instructions.DocLineSources | builder/builder.go:55-114 | a line starting with USER, EXPOSE, ENTRYPOINT or four spaces implies that the user, the exposed port, the entrypoint or a dependency, respectively, is set |
| Instructions.RequestedLines | builder/builder.go:55-114 | any list of lines with the document's layout has the FROM and WORKDIR lines, and the USER, EXPOSE, ENTRYPOINT and dependency lines whenever their fields are set |
| Instructions.DocInstructions | builder/builder.go:55-114 | the document has a USER line iff a user is set; an EXPOSE line iff exposing is requested and the port is positive; an ENTRYPOINT line iff an entrypoint is set; an indented dependency line iff there are dependencies; and always the FROM and WORKDIR lines |
| Instructions.OutputInstructions | builder/builder.go:55-116 | the same iff statements hold for the lines of the generated text when fields are single-line |
| Edits.AddDependencyLines | builder/builder.go:60-67 | after one more dependency, the document has a single new line, the dependency's line, right after the existing dependency lines; the first dependency instead inserts the whole install block after the FROM block; every other line is unchanged |
| Edits.AddPreRunCommandLines | builder/builder.go:70-75 | after one more pre-run command, a single RUN line is inserted right after the existing ones; the first command inserts its line and a blank line; every other line is unchanged |
| Edits.AddCopyFileLines | builder/builder.go:84-93 | after one more pair, a single COPY line is inserted right after the existing ones; the first pair replaces `COPY . .`; every other line is unchanged |
| Edits.RunCommandIgnored | builder/builder.go:24 | the run command never affects the generator's result |
| Scenarios.FullConfigDocLines | dockerfile/dockerfile_test.go:31-43 | the full test configuration yields exactly the expected lines, among them each substring the test looks for |
| Scenarios.FullConfigScenario | dockerfile/dockerfile_test.go:10-50 | generating the full test configuration gives no error and exactly the expected lines, each ended by a newline |
| Scenarios.MinimalConfigScenario | dockerfile/dockerfile_test.go:53-67 | a record with only the base image set gives no error and exactly the FROM, `COPY . .` and empty WORKDIR lines, each followed by a blank line |
| Scenarios.NoBaseImageScenario | dockerfile/dockerfile_test.go:70-82 | the zero record gives the empty text and an error whose message is "base image cannot be empty" |
| Scenarios.AddDependencyScenario | dockerfile/dockerfile_test.go:85-92 | adding one dependency to a record without any leaves exactly that dependency |
| Scenarios.AddCopyFileScenario | dockerfile/dockerfile_test.go:95-103 | adding one copy pair to a record without any leaves exactly that pair |
| Scenarios.AddPreRunCommandScenario | dockerfile/dockerfile_test.go:106-114 | adding one pre-run command to a record without any leaves exactly that command |

## Left out

- `main.go` is not part of this model. It holds flag parsing, the splitting
  of comma-separated lists, directory creation and file writing, all I/O
  around the generator.
- The `dockerfile` and `types` packages are not part of this model. The test
  cases in `dockerfile/dockerfile_test.go` are applied to the `builder`
  generator, whose API they exercise in the same form.
- `fmt.Sprintf`, `fmt.Errorf` and `strings.Builder` are modelled as string
  concatenation. `%d` is modelled by a decimal rendering of a natural
  number, which is all the generator needs because it prints the port only
  when it is positive. The error value is a datatype with its fixed message.
- `AppPort` is an unbounded integer. Go's 64-bit `int` width and the
  formatting of negative numbers are not modelled, because no positive port
  reaches them.
- Slices are values. Two records whose slices share a backing array after
  `append` are not modelled, nor is a nil slice as distinct from an empty
  one.
- Layout.OutputLayout: stated only when no field that reaches the output
  holds a line break. Otherwise a field would split into several lines of
  the text. The text-level contracts (`Generate`, `GenerateDockerfileContent`,
  `RenderAsLines`, `RenderEnding`) hold without that condition.
- Instructions.OutputInstructions: the same single-line condition as
  `OutputLayout`. `DocInstructions` states the same facts about the
  document's lines for every record.
