# Task property validation, modelled in Dafny

This project models the validation actions that Gradle runs over the
filesystem-backed properties of a task (`ValidationActions`). There are seven
validators: `NO_OP`, input file, input directory, output directory, output
directories, output file and output files. Each one takes a property name, a
raw value and a task validation context, and does three things:

- it converts the value to one path, or to a sequence of paths;
- it probes the filesystem for existence and kind;
- it appends structured error problems to the context's sink instead of
  throwing.

`validate` turns a value that cannot be converted into exactly one problem.

## Layout

- `wrappers.dfy` (`Wrappers`): `Option`, standing in for `null` and for a
  conversion that throws.
- `file_system.dfy` (`FileSystem`): paths as segment sequences, the
  filesystem as `map<Path, Kind>`, `getParentFile`, and the rendering of a
  path. It also holds the upward walk the output validators make (`WalkFrom`,
  `BlockingAncestor`) and the proof that the walk finds the nearest existing
  ancestor.
- `values.dfy` (`Values`): the raw values a property can hold, the resolver
  (the two conversions in the file operations), and `toFile`,
  `toDirectory` and `toFiles`.
- `problems.dfy` (`Problems`): the problem record, `actualKindOf`, and
  `Report`. A `Report` is one call of a report helper with its arguments,
  which is what the lazily evaluated problem builder captures.
  `Report.ToProblem` evaluates it to the strings the builder produces.
- `task_validation.dfy` (`TaskValidation`): the context class. It holds the
  filesystem, the reserved-location policy, the resolver, and the
  `problems` sink that `VisitPropertyProblem` appends to.
- `validation_actions.dfy` (`ValidationActions`): the enum, with its target
  types. It holds the specification functions (`DoValidateOutcome`,
  `ProblemsOf` and the per-validator problem functions), and the
  validators as methods that change the context. Each method is proved to
  append exactly what the specification says.
- `validation_properties.dfy` (`ValidationProperties`): the properties the
  validators promise, proved about the specification.

A conversion failure (`UnsupportedNotationException`) is an explicit
outcome. `DoValidate` returns `converted = false` and leaves the sink as it
was. `Validate` then appends the one conversion problem, as the `catch` does.

## Model

| member | source | states |
|---|---|---|
| `ValidationActions.Validate` | subprojects/core/src/main/java/org/gradle/api/internal/tasks/properties/ValidationActions.java:192-199 | the sink grows by exactly `ProblemsOf(action, …)`: the doValidate problems, or the single conversion problem when the value cannot be converted |
| `ValidationActions.DoValidate` | subprojects/core/src/main/java/org/gradle/api/internal/tasks/properties/ValidationActions.java:30-112 | dispatches to the constant's check; `converted` is false exactly when the conversion fails, and then nothing is appended; `NO_OP` appends nothing |
| `ValidationActions.ValidateInputFile` | subprojects/core/src/main/java/org/gradle/api/internal/tasks/properties/ValidationActions.java:36-46 | appends the missing-input problem, the unexpected-kind problem, or nothing, as the input-file outcome says |
| `ValidationActions.ValidateInputDirectory` | subprojects/core/src/main/java/org/gradle/api/internal/tasks/properties/ValidationActions.java:47-57 | the same for a directory, after `toDirectory` |
| `ValidationActions.ValidateOutputDirectory` | subprojects/core/src/main/java/org/gradle/api/internal/tasks/properties/ValidationActions.java:58-76 | reserved-location problem first; then the kind check if the path exists, otherwise the ancestor walk, whose loop invariant ties the current candidate to `BlockingAncestor` and which stops at the first conflict (`return`) |
| `ValidationActions.ValidateOutputFile` | subprojects/core/src/main/java/org/gradle/api/internal/tasks/properties/ValidationActions.java:85-104 | the same for a file: a problem for an existing directory only, and the walk that `break`s at the first conflict |
| `ValidationActions.ValidateOutputDirectories` | subprojects/core/src/main/java/org/gradle/api/internal/tasks/properties/ValidationActions.java:77-84 | after `toFiles`, validates every directory with the output-directory validator, appending `EachProblems` |
| `ValidationActions.ValidateOutputFiles` | subprojects/core/src/main/java/org/gradle/api/internal/tasks/properties/ValidationActions.java:105-112 | the same with the output-file validator |
| `ValidationActions.ValidateEach` | subprojects/core/src/main/java/org/gradle/api/internal/tasks/properties/ValidationActions.java:80-82 | the loop over the resolved files: each element goes through `validate` in order, and the sink grows by the concatenation of their problems |
| `ValidationActions.ValidateNotInReservedFileSystemLocation` | subprojects/core/src/main/java/org/gradle/api/internal/tasks/properties/ValidationActions.java:178-182 | appends the reserved-location message exactly when the context says the location is reserved |
| `ValidationActions.ReportMissingInput` | subprojects/core/src/main/java/org/gradle/api/internal/tasks/properties/ValidationActions.java:114-126 | appends one missing-input report |
| `ValidationActions.ReportUnexpectedInputKind` | subprojects/core/src/main/java/org/gradle/api/internal/tasks/properties/ValidationActions.java:128-140 | appends one unexpected-kind report |
| `ValidationActions.ReportCannotWriteToDirectory` | subprojects/core/src/main/java/org/gradle/api/internal/tasks/properties/ValidationActions.java:142-152 | appends one cannot-write report naming the directory and the reason |
| `ValidationActions.ReportCannotWriteToFile` | subprojects/core/src/main/java/org/gradle/api/internal/tasks/properties/ValidationActions.java:155-165 | appends one cannot-write report with the reason |
| `ValidationActions.EachProblemsStep` | subprojects/core/src/main/java/org/gradle/api/internal/tasks/properties/ValidationActions.java:80-82 | one more loop iteration appends the next file's problems to those of the files before it |
| `TaskValidation.Context.VisitPropertyProblem` | subprojects/core/src/main/java/org/gradle/api/internal/tasks/properties/ValidationActions.java:115 | the sink grows by exactly the visited problem |
| `TaskValidation.Context.constructor` | subprojects/core/src/main/java/org/gradle/api/internal/tasks/properties/ValidationActions.java:193 | a fresh context holds its environment and has no problems recorded yet |
| `Values.MapValues` | subprojects/core/src/main/java/org/gradle/api/internal/tasks/properties/ValidationActions.java:213-214 | the values of a map, one per entry and in order, its keys dropped |
| `Problems.ActualKindOf` | subprojects/core/src/main/java/org/gradle/api/internal/tasks/properties/ValidationActions.java:168-176 | "file" exactly for a file, "directory" exactly for a directory, "unexpected file type" for anything else, a missing path included |
| `Problems.Lower` | subprojects/core/src/main/java/org/gradle/api/internal/tasks/properties/ValidationActions.java:116 | lower-casing keeps the length and lowers each ASCII letter |
| `Problems.KindNamesInLowerCase` | subprojects/core/src/main/java/org/gradle/api/internal/tasks/properties/ValidationActions.java:41-54 | the kinds "File" and "Directory" come out as "file" and "directory" |
| `Problems.BuildAll` | subprojects/core/src/main/java/org/gradle/api/internal/tasks/properties/ValidationActions.java:115-164 | building the reports gives one problem per report, in order |
| `FileSystem.Parent` | subprojects/core/src/main/java/org/gradle/api/internal/tasks/properties/ValidationActions.java:68 | the root has no parent; any other path's parent is one segment shorter and a prefix of it |
| `FileSystem.Render` | subprojects/core/src/main/java/org/gradle/api/internal/tasks/properties/ValidationActions.java:65 | a path is rendered as an absolute name starting with '/'; the root is "/" |
| `FileSystem.BlockingAncestorIsNearest` | subprojects/core/src/main/java/org/gradle/api/internal/tasks/properties/ValidationActions.java:68-73 | the walk yields `a` exactly when `a` is the nearest existing strict ancestor and is not a directory; so nothing when that ancestor is a directory |
| `FileSystem.WalkFromPrefix` | subprojects/core/src/main/java/org/gradle/api/internal/tasks/properties/ValidationActions.java:96-101 | what the walk yields is an existing non-directory prefix, with nothing existing between it and the start |
| `FileSystem.WalkFromFinds` | subprojects/core/src/main/java/org/gradle/api/internal/tasks/properties/ValidationActions.java:96-101 | conversely, such a prefix is what the walk yields |
| `FileSystem.NoExistingAncestorNoBlock` | subprojects/core/src/main/java/org/gradle/api/internal/tasks/properties/ValidationActions.java:68 | when no ancestor exists, the walk reaches past the root and reports nothing |
| `ValidationProperties.NoOpReportsNothing` | subprojects/core/src/main/java/org/gradle/api/internal/tasks/properties/ValidationActions.java:31-35 | `NO_OP` reports nothing for any value, one that cannot be converted included |
| `ValidationProperties.ConversionFailsWithItsResolution` | subprojects/core/src/main/java/org/gradle/api/internal/tasks/properties/ValidationActions.java:201-220 | conversion fails exactly when the validator's own conversion (`toFile`, `toDirectory` or `toFiles`) fails; `NO_OP` never fails |
| `ValidationProperties.ConversionFailureIsOneProblem` | subprojects/core/src/main/java/org/gradle/api/internal/tasks/properties/ValidationActions.java:193-199 | a failed conversion yields exactly one plain error, "Value '…' specified for property '…' cannot be converted to a <target type>", and nothing else |
| `ValidationProperties.TargetTypes` | subprojects/core/src/main/java/org/gradle/api/internal/tasks/properties/ValidationActions.java:31-105 | the target type of each constant; the output-directory validator's is "file" |
| `ValidationProperties.InputFileOutcomes` | subprojects/core/src/main/java/org/gradle/api/internal/tasks/properties/ValidationActions.java:38-45 | at most one problem; none exactly for a file; missing input exactly when the path does not exist; unexpected kind exactly when it exists and is not a file |
| `ValidationProperties.InputDirectoryOutcomes` | subprojects/core/src/main/java/org/gradle/api/internal/tasks/properties/ValidationActions.java:49-56 | the same for a directory |
| `ValidationProperties.InputDirectoryOfFileTree` | subprojects/core/src/main/java/org/gradle/api/internal/tasks/properties/ValidationActions.java:201-206 | a file tree is checked at its root directory, whatever the resolver does |
| `ValidationProperties.MissingInputReport` | subprojects/core/src/main/java/org/gradle/api/internal/tasks/properties/ValidationActions.java:114-126 | id, property, severity, the lower-case kind in the description, cause "An input is missing", the two solutions in order, the anchor |
| `ValidationProperties.UnexpectedInputFileReport` | subprojects/core/src/main/java/org/gradle/api/internal/tasks/properties/ValidationActions.java:128-140 | for an input file the actual kind is "directory" or "unexpected file type", and it appears in the cause and the second solution |
| `ValidationProperties.UnexpectedInputDirectoryReport` | subprojects/core/src/main/java/org/gradle/api/internal/tasks/properties/ValidationActions.java:128-140 | for an input directory the actual kind is "file" or "unexpected file type" |
| `ValidationProperties.ReservedLocationReport` | subprojects/core/src/main/java/org/gradle/api/internal/tasks/properties/ValidationActions.java:180 | a plain error "The output <location> must not be in a reserved location" with no id and no property |
| `ValidationProperties.CannotWriteToDirectoryReport` | subprojects/core/src/main/java/org/gradle/api/internal/tasks/properties/ValidationActions.java:142-152 | CANNOT_WRITE_OUTPUT; the cause names the path that is not a directory and its actual kind |
| `ValidationProperties.CannotWriteToFileReport` | subprojects/core/src/main/java/org/gradle/api/internal/tasks/properties/ValidationActions.java:155-165 | CANNOT_WRITE_OUTPUT with the fixed cause and the property in the solution |
| `ValidationProperties.OutputFileReservedLocationFirst` | subprojects/core/src/main/java/org/gradle/api/internal/tasks/properties/ValidationActions.java:88-102 | the reserved problem comes first exactly when the location is reserved, existing or not; it is followed by at most one CANNOT_WRITE_OUTPUT |
| `ValidationProperties.OutputDirectoryReservedLocationFirst` | subprojects/core/src/main/java/org/gradle/api/internal/tasks/properties/ValidationActions.java:61-74 | the same for an output directory |
| `ValidationProperties.ExistingOutputFile` | subprojects/core/src/main/java/org/gradle/api/internal/tasks/properties/ValidationActions.java:90-94 | an existing output file gets a cannot-write problem exactly when it is a directory |
| `ValidationProperties.ExistingOutputDirectory` | subprojects/core/src/main/java/org/gradle/api/internal/tasks/properties/ValidationActions.java:63-66 | an existing output directory gets a cannot-write problem, naming itself, exactly when it is not a directory |
| `ValidationProperties.ExistingOutputIgnoresAncestors` | subprojects/core/src/main/java/org/gradle/api/internal/tasks/properties/ValidationActions.java:63-66 | for an existing output only what is at the path matters: no ancestor is consulted |
| `ValidationProperties.MissingOutputDirectory` | subprojects/core/src/main/java/org/gradle/api/internal/tasks/properties/ValidationActions.java:67-73 | at most one problem; one exactly when the nearest existing ancestor is not a directory, naming that ancestor; none when no ancestor exists |
| `ValidationProperties.MissingOutputFile` | subprojects/core/src/main/java/org/gradle/api/internal/tasks/properties/ValidationActions.java:95-101 | the same for an output file |
| `ValidationProperties.FileAncestorBlocksOutputDirectory` | subprojects/core/src/main/java/org/gradle/api/internal/tasks/properties/ValidationActions.java:68-71 | `/a/b/c` with `/a/b` a file: exactly one problem, naming `/a/b` |
| `ValidationProperties.EachProblemsAppend` | subprojects/core/src/main/java/org/gradle/api/internal/tasks/properties/ValidationActions.java:80-82 | the problems of a concatenation of files are the problems of each part, in order |
| `ValidationProperties.EveryFileIsChecked` | subprojects/core/src/main/java/org/gradle/api/internal/tasks/properties/ValidationActions.java:108-110 | each file's problems are kept between those of the files before and after it: none suppresses another |
| `ValidationProperties.OnlyTheConflictingOutputReports` | subprojects/core/src/main/java/org/gradle/api/internal/tasks/properties/ValidationActions.java:105-112 | with a valid first output and a conflicting second one, only the second one's problems are reported |
| `ValidationProperties.EachOutputIsValidated` | subprojects/core/src/main/java/org/gradle/api/internal/tasks/properties/ValidationActions.java:77-111 | with a resolver that gives a File back as itself, a collection validator reports the concatenation of the single validator's problems for each path |
| `ValidationProperties.MapKeysAreIgnored` | subprojects/core/src/main/java/org/gradle/api/internal/tasks/properties/ValidationActions.java:212-214 | a map converts through the collection of its values; two maps with the same values give the same outcome, whatever their keys |

## Notes on the model

- A path is the sequence of its segments from the root. The empty sequence
  is the root `/`, whose parent is absent (`getParentFile()` returns `null`).
  `File.toString()` is `Render`: the segments joined by `/`.
- The filesystem is a snapshot, `map<Path, Kind>`, with
  `Kind = File | Directory | Other`. `exists`, `isFile` and `isDirectory`
  are lookups in it.
- The resolver's `file(Object)` and `immutableFiles(Object)` are total
  functions to `Option`. `None` stands for `UnsupportedNotationException`.
  A `ConfigurableFileTree` carries its root and its files. Any other
  `FileCollection` carries its files, in iteration order.
- The sink records a `Report` for each call of `visitPropertyProblem`.
  `Report.ToProblem` is what the problem builder produces from it, with the
  same filesystem probes. The two plain-message calls (`visitPropertyProblem(ERROR, message)`)
  build problems whose id, property, cause and documentation are absent. The
  code sets no problem id for a conversion failure, so the model sets none.
- The output-file walk `break`s and the output-directory walk `return`s.
  Neither validator does anything after its walk, so both have the same
  specification.

## Left out

- Real filesystem probes and I/O errors: the filesystem is a fixed snapshot, and a probe cannot fail.
- The internals of the file resolver and of file collections and file trees (code that is not part of this model): they are parameters of the context.
- The `ProblemBuilder` API and its lazy suppliers: a problem is the evaluated record.
- The thread safety of the context and the code that calls `validate`.
- `toString()` of arbitrary objects: `Values.Show` renders the value kinds of the model, and a notation's text stands for its own `toString()`.
- `Problems.Lower`: only ASCII letters are lowered, which covers the two kind names passed; `String.toLowerCase()` is locale- and Unicode-aware.
- Exceptions from the resolver other than the notation failure: the source lets them propagate, and the model has no such path.
- `AntlrPlugin` is plugin wiring (registering configurations, tasks and source sets) with no computation of its own to model.
