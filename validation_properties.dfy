/**
 * What the validators promise, proved about the specification functions
 * that the validator methods are verified against.
 */
module ValidationProperties {
  import opened Wrappers
  import opened FileSystem
  import opened Values
  import opened Problems
  import opened TaskValidation
  import opened ValidationActions

  // ---------------------------------------------------------------------
  // validate and NO_OP
  // ---------------------------------------------------------------------

  /** NO_OP reports nothing, whatever the value, convertible or not. */
  lemma NoOpReportsNothing(env: Environment, propertyName: string, value: Value)
    ensures ProblemsOf(NoOp, env, propertyName, value) == []
  {
  }

  /** Conversion fails exactly when the conversion the validator applies fails; NO_OP converts nothing. */
  lemma ConversionFailsWithItsResolution(action: ValidationAction, env: Environment, propertyName: string, value: Value)
    ensures action == NoOp ==> DoValidateOutcome(action, env, propertyName, value).Some?
    ensures action in {InputFileValidator, OutputFileValidator, OutputDirectoryValidator} ==>
              (DoValidateOutcome(action, env, propertyName, value).None? <==> ToFile(env.resolver, value).None?)
    ensures action == InputDirectoryValidator ==>
              (DoValidateOutcome(action, env, propertyName, value).None? <==> ToDirectory(env.resolver, value).None?)
    ensures action in {OutputFilesValidator, OutputDirectoriesValidator} ==>
              (DoValidateOutcome(action, env, propertyName, value).None? <==> ToFiles(env.resolver, value).None?)
  {
  }

  /**
   * A value that cannot be converted yields exactly one error, a plain
   * message that names the value, the property and the validator's target
   * type, and nothing else.
   */
  lemma ConversionFailureIsOneProblem(action: ValidationAction, env: Environment, propertyName: string, value: Value)
    requires DoValidateOutcome(action, env, propertyName, value).None?
    ensures ProblemsOf(action, env, propertyName, value) == [NotConvertible(value, propertyName, action.TargetType())]
    ensures var problem := NotConvertible(value, propertyName, action.TargetType()).ToProblem(env.fs);
            problem.severity == Error && problem.id.None? &&
            problem.description ==
              "Value '" + Show(value) + "' specified for property '" + propertyName +
              "' cannot be converted to a " + action.TargetType()
  {
  }

  /** The target types: OUTPUT_DIRECTORY_VALIDATOR, too, names a "file". */
  lemma TargetTypes()
    ensures InputFileValidator.TargetType() == "file"
    ensures InputDirectoryValidator.TargetType() == "directory"
    ensures OutputDirectoryValidator.TargetType() == "file"
    ensures OutputFileValidator.TargetType() == "file"
    ensures NoOp.TargetType() == "file collection"
    ensures OutputDirectoriesValidator.TargetType() == "file collection"
    ensures OutputFilesValidator.TargetType() == "file collection"
  {
  }

  // ---------------------------------------------------------------------
  // Input validators
  // ---------------------------------------------------------------------

  /**
   * INPUT_FILE_VALIDATOR reports at most one problem: a missing input when
   * the path does not exist, an unexpected kind when it exists but is not a
   * file (a directory or anything else), and nothing for a file.
   */
  lemma InputFileOutcomes(env: Environment, propertyName: string, value: Value, file: Path)
    requires ToFile(env.resolver, value) == Some(file)
    ensures var problems := ProblemsOf(InputFileValidator, env, propertyName, value);
            |problems| <= 1 &&
            (problems == [] <==> IsFile(env.fs, file)) &&
            (problems == [MissingInput("File", propertyName, file)] <==> !Exists(env.fs, file)) &&
            (problems == [UnexpectedInputKind("File", propertyName, file)] <==>
               Exists(env.fs, file) && !IsFile(env.fs, file))
  {
  }

  /** INPUT_DIRECTORY_VALIDATOR, likewise for directories. */
  lemma InputDirectoryOutcomes(env: Environment, propertyName: string, value: Value, directory: Path)
    requires ToDirectory(env.resolver, value) == Some(directory)
    ensures var problems := ProblemsOf(InputDirectoryValidator, env, propertyName, value);
            |problems| <= 1 &&
            (problems == [] <==> IsDirectory(env.fs, directory)) &&
            (problems == [MissingInput("Directory", propertyName, directory)] <==> !Exists(env.fs, directory)) &&
            (problems == [UnexpectedInputKind("Directory", propertyName, directory)] <==>
               Exists(env.fs, directory) && !IsDirectory(env.fs, directory))
  {
  }

  /** A file tree given as an input directory is checked at its root, whatever the resolver does. */
  lemma InputDirectoryOfFileTree(env: Environment, propertyName: string, dir: Path, files: seq<Path>)
    ensures ProblemsOf(InputDirectoryValidator, env, propertyName, FileTree(dir, files)) ==
            InputDirectoryProblems(env.fs, propertyName, dir)
  {
  }

  /** The missing-input problem: the kind in lower case, its cause, two solutions in order, its anchor. */
  lemma MissingInputReport(fs: FileSystem, propertyName: string, input: Path)
    ensures var problem, kind := MissingInput("File", propertyName, input).ToProblem(fs), "file";
            problem.id == Some(InputDoesNotExist) && problem.property == Some(propertyName) &&
            problem.severity == Error &&
            problem.description == kind + " " + Quoted(input) + " doesn't exist" &&
            problem.cause == Some("An input is missing") &&
            problem.solutions == ["Make sure the " + kind + " exists before the task is called",
                                  "Make sure that the task which produces the " + kind + " is declared as an input"] &&
            problem.documentation == Some(DocAnchor("validation_problems", "input_does_not_exist"))
    ensures var problem, kind := MissingInput("Directory", propertyName, input).ToProblem(fs), "directory";
            problem.id == Some(InputDoesNotExist) && problem.property == Some(propertyName) &&
            problem.severity == Error &&
            problem.description == kind + " " + Quoted(input) + " doesn't exist" &&
            problem.cause == Some("An input is missing") &&
            problem.solutions == ["Make sure the " + kind + " exists before the task is called",
                                  "Make sure that the task which produces the " + kind + " is declared as an input"] &&
            problem.documentation == Some(DocAnchor("validation_problems", "input_does_not_exist"))
  {
    KindNamesInLowerCase();
  }

  /**
   * The unexpected-kind problem of an input file names what was found
   * instead: a directory or an unexpected file type, never a file.
   */
  lemma UnexpectedInputFileReport(fs: FileSystem, propertyName: string, input: Path)
    requires Exists(fs, input) && !IsFile(fs, input)
    ensures var problem, kind := UnexpectedInputKind("File", propertyName, input).ToProblem(fs), "file";
            var actual := ActualKindOf(fs, input);
            (actual == "directory" || actual == "unexpected file type") &&
            problem.id == Some(UnexpectedInputType) && problem.property == Some(propertyName) &&
            problem.description == kind + " " + Quoted(input) + " is not a " + kind &&
            problem.cause == Some("Expected an input to be a " + kind + " but it was a " + actual) &&
            problem.solutions == ["Use a " + kind + " as an input", "Declare the input as a " + actual + " instead"] &&
            problem.documentation == Some(DocAnchor("validation_problems", "unexpected_input_type"))
  {
    KindNamesInLowerCase();
  }

  /** Likewise for an input directory: what was found is a file or an unexpected file type. */
  lemma UnexpectedInputDirectoryReport(fs: FileSystem, propertyName: string, input: Path)
    requires Exists(fs, input) && !IsDirectory(fs, input)
    ensures var problem, kind := UnexpectedInputKind("Directory", propertyName, input).ToProblem(fs), "directory";
            var actual := ActualKindOf(fs, input);
            (actual == "file" || actual == "unexpected file type") &&
            problem.id == Some(UnexpectedInputType) && problem.property == Some(propertyName) &&
            problem.description == kind + " " + Quoted(input) + " is not a " + kind &&
            problem.cause == Some("Expected an input to be a " + kind + " but it was a " + actual) &&
            problem.solutions == ["Use a " + kind + " as an input", "Declare the input as a " + actual + " instead"] &&
            problem.documentation == Some(DocAnchor("validation_problems", "unexpected_input_type"))
  {
    KindNamesInLowerCase();
  }

  /** The reserved-location message: a plain error naming the location. */
  lemma ReservedLocationReport(fs: FileSystem, location: Path)
    ensures var problem := ReservedLocation(location).ToProblem(fs);
            problem.severity == Error && problem.id.None? && problem.property.None? &&
            problem.description == "The output " + Render(location) + " must not be in a reserved location"
  {
  }

  /**
   * The cannot-write problem of an output directory names, in its cause, the
   * path found not to be a directory and what that path is instead.
   */
  lemma CannotWriteToDirectoryReport(fs: FileSystem, propertyName: string, directory: Path, reason: Reason)
    ensures var problem := CannotWriteToDirectory(propertyName, directory, reason).ToProblem(fs);
            problem.id == Some(CannotWriteOutput) && problem.property == Some(propertyName) &&
            problem.description == "is not writable because " + reason.Text() &&
            problem.cause == Some("Expected " + Quoted(directory) + " to be a directory but it's a " +
                                  ActualKindOf(fs, directory)) &&
            problem.solutions == ["Make sure that the '" + propertyName + "' is configured to a directory"] &&
            problem.documentation == Some(DocAnchor("validation_problems", "cannot_write_output"))
  {
  }

  /** The cannot-write problem of an output file: the same id and anchor, its own cause and solution. */
  lemma CannotWriteToFileReport(fs: FileSystem, propertyName: string, reason: Reason)
    ensures var problem := CannotWriteToFile(propertyName, reason).ToProblem(fs);
            problem.id == Some(CannotWriteOutput) && problem.property == Some(propertyName) &&
            problem.description == "is not writable because " + reason.Text() &&
            problem.cause == Some("Cannot write a file to a location pointing at a directory") &&
            problem.solutions == ["Configure '" + propertyName + "' to point to a file, not a directory"] &&
            problem.documentation == Some(DocAnchor("validation_problems", "cannot_write_output"))
  {
  }

  // ---------------------------------------------------------------------
  // Single output validators
  // ---------------------------------------------------------------------

  /**
   * OUTPUT_FILE_VALIDATOR reports the reserved location first, whether or
   * not the path exists, and then at most one cannot-write problem.
   */
  lemma OutputFileReservedLocationFirst(env: Environment, propertyName: string, value: Value, file: Path)
    requires ToFile(env.resolver, value) == Some(file)
    ensures var problems := ProblemsOf(OutputFileValidator, env, propertyName, value);
            var kind := OutputFileKindProblems(env.fs, propertyName, file);
            problems == ReservedProblems(env, file) + kind &&
            (env.reserved(file) <==> |problems| > 0 && problems[0] == ReservedLocation(file)) &&
            |kind| <= 1 &&
            forall problem :: problem in kind ==> problem.ToProblem(env.fs).id == Some(CannotWriteOutput)
  {
    assert ProblemsOf(OutputFileValidator, env, propertyName, value) == OutputFileProblems(env, propertyName, file);
  }

  /** OUTPUT_DIRECTORY_VALIDATOR, likewise. */
  lemma OutputDirectoryReservedLocationFirst(env: Environment, propertyName: string, value: Value, directory: Path)
    requires ToFile(env.resolver, value) == Some(directory)
    ensures var problems := ProblemsOf(OutputDirectoryValidator, env, propertyName, value);
            var kind := OutputDirectoryKindProblems(env.fs, propertyName, directory);
            problems == ReservedProblems(env, directory) + kind &&
            (env.reserved(directory) <==> |problems| > 0 && problems[0] == ReservedLocation(directory)) &&
            |kind| <= 1 &&
            forall problem :: problem in kind ==> problem.ToProblem(env.fs).id == Some(CannotWriteOutput)
  {
    assert ProblemsOf(OutputDirectoryValidator, env, propertyName, value) ==
           OutputDirectoryProblems(env, propertyName, directory);
  }

  /** An existing output file: a cannot-write problem exactly when it is a directory. */
  lemma ExistingOutputFile(fs: FileSystem, propertyName: string, file: Path)
    requires Exists(fs, file)
    ensures OutputFileKindProblems(fs, propertyName, file) ==
            if IsDirectory(fs, file) then [CannotWriteToFile(propertyName, NotAFile(file))] else []
  {
  }

  /** An existing output directory: a cannot-write problem exactly when it is not a directory. */
  lemma ExistingOutputDirectory(fs: FileSystem, propertyName: string, directory: Path)
    requires Exists(fs, directory)
    ensures var kind := OutputDirectoryKindProblems(fs, propertyName, directory);
            (kind == [] <==> IsDirectory(fs, directory)) &&
            (kind != [] ==>
               kind == [CannotWriteToDirectory(propertyName, directory, NotADirectory(directory))])
  {
  }

  /** For an existing output the ancestors are not consulted: only what is at the path itself matters. */
  lemma ExistingOutputIgnoresAncestors(fs1: FileSystem, fs2: FileSystem, propertyName: string, p: Path)
    requires p in fs1 && p in fs2 && fs1[p] == fs2[p]
    ensures OutputFileKindProblems(fs1, propertyName, p) == OutputFileKindProblems(fs2, propertyName, p)
    ensures OutputDirectoryKindProblems(fs1, propertyName, p) == OutputDirectoryKindProblems(fs2, propertyName, p)
  {
  }

  /**
   * A missing output directory: one cannot-write problem exactly when its
   * nearest existing ancestor is not a directory; the problem names that
   * ancestor in its description and its cause.
   */
  lemma MissingOutputDirectory(fs: FileSystem, propertyName: string, directory: Path)
    requires !Exists(fs, directory)
    ensures var kind := OutputDirectoryKindProblems(fs, propertyName, directory);
            |kind| <= 1 &&
            (kind != [] <==> exists a :: IsNearestExistingAncestor(fs, directory, a) && !IsDirectory(fs, a))
    ensures forall a :: IsNearestExistingAncestor(fs, directory, a) && !IsDirectory(fs, a) ==>
              var kind := OutputDirectoryKindProblems(fs, propertyName, directory);
              kind == [CannotWriteToDirectory(propertyName, a, AncestorNotADirectory(directory, a))] &&
              ActualKindOf(fs, a) != "directory"
    ensures (forall k :: 0 <= k < |directory| ==> !Exists(fs, directory[..k])) ==>
              OutputDirectoryKindProblems(fs, propertyName, directory) == []
  {
    forall a | true
      ensures BlockingAncestor(fs, directory) == Some(a) <==>
              IsNearestExistingAncestor(fs, directory, a) && !IsDirectory(fs, a)
    {
      BlockingAncestorIsNearest(fs, directory, a);
    }
    if forall k :: 0 <= k < |directory| ==> !Exists(fs, directory[..k]) {
      NoExistingAncestorNoBlock(fs, directory);
    }
  }

  /** A missing output file: likewise, the problem naming the blocking ancestor. */
  lemma MissingOutputFile(fs: FileSystem, propertyName: string, file: Path)
    requires !Exists(fs, file)
    ensures var kind := OutputFileKindProblems(fs, propertyName, file);
            |kind| <= 1 &&
            (kind != [] <==> exists a :: IsNearestExistingAncestor(fs, file, a) && !IsDirectory(fs, a))
    ensures forall a :: IsNearestExistingAncestor(fs, file, a) && !IsDirectory(fs, a) ==>
              OutputFileKindProblems(fs, propertyName, file) ==
              [CannotWriteToFile(propertyName, AncestorNotADirectory(file, a))]
    ensures (forall k :: 0 <= k < |file| ==> !Exists(fs, file[..k])) ==>
              OutputFileKindProblems(fs, propertyName, file) == []
  {
    forall a | true
      ensures BlockingAncestor(fs, file) == Some(a) <==>
              IsNearestExistingAncestor(fs, file, a) && !IsDirectory(fs, a)
    {
      BlockingAncestorIsNearest(fs, file, a);
    }
    if forall k :: 0 <= k < |file| ==> !Exists(fs, file[..k]) {
      NoExistingAncestorNoBlock(fs, file);
    }
  }

  /** /a/b/c as an output directory, where /a/b is a file: one problem, naming /a/b. */
  lemma FileAncestorBlocksOutputDirectory(propertyName: string)
    ensures var fs := map[[] := Directory, ["a"] := Directory, ["a", "b"] := File];
            OutputDirectoryKindProblems(fs, propertyName, ["a", "b", "c"]) ==
            [CannotWriteToDirectory(propertyName, ["a", "b"], AncestorNotADirectory(["a", "b", "c"], ["a", "b"]))]
  {
    var p := ["a", "b", "c"];
    assert p[..2] == ["a", "b"];
  }

  // ---------------------------------------------------------------------
  // Collection validators
  // ---------------------------------------------------------------------

  /** The problems of a collection are those of its parts, one after the other. */
  lemma {:induction false} EachProblemsAppend(action: SinglePathAction, env: Environment, propertyName: string,
                                              xs: seq<Path>, ys: seq<Path>)
    ensures EachProblems(action, env, propertyName, xs + ys) ==
            EachProblems(action, env, propertyName, xs) + EachProblems(action, env, propertyName, ys)
    decreases |ys|
  {
    if ys == [] {
      assert xs + ys == xs;
    } else {
      var n := |ys| - 1;
      assert (xs + ys)[..|xs + ys| - 1] == xs + ys[..n];
      EachProblemsAppend(action, env, propertyName, xs, ys[..n]);
      AppendAssociative(EachProblems(action, env, propertyName, xs), EachProblems(action, env, propertyName, ys[..n]),
                        ProblemsOf(action, env, propertyName, FileValue(ys[n])));
    }
  }

  /**
   * One file's problems never suppress another's: the problems of file i sit
   * between those of the files before it and those of the files after it.
   */
  lemma EveryFileIsChecked(action: SinglePathAction, env: Environment, propertyName: string, files: seq<Path>, i: nat)
    requires i < |files|
    ensures EachProblems(action, env, propertyName, files) ==
            EachProblems(action, env, propertyName, files[..i]) +
            ProblemsOf(action, env, propertyName, FileValue(files[i])) +
            EachProblems(action, env, propertyName, files[i + 1..])
  {
    assert files == files[..i + 1] + files[i + 1..];
    EachProblemsAppend(action, env, propertyName, files[..i + 1], files[i + 1..]);
    EachProblemsStep(action, env, propertyName, files, i);
  }

  /** A valid first output and a conflicting second one: only the second one's problems are reported. */
  lemma OnlyTheConflictingOutputReports(env: Environment, propertyName: string, values: Value, p1: Path, p2: Path)
    requires ToFiles(env.resolver, values) == Some([p1, p2])
    requires ProblemsOf(OutputFileValidator, env, propertyName, FileValue(p1)) == []
    ensures ProblemsOf(OutputFilesValidator, env, propertyName, values) ==
            ProblemsOf(OutputFileValidator, env, propertyName, FileValue(p2))
  {
    EachProblemsStep(OutputFileValidator, env, propertyName, [p1, p2], 0);
    EachProblemsStep(OutputFileValidator, env, propertyName, [p1, p2], 1);
    assert [p1, p2][..0] == [] && [p1, p2][..2] == [p1, p2];
  }

  /** The problems of each path, concatenated in order. */
  function Flatten(parts: seq<seq<Report>>): seq<Report> {
    if parts == [] then [] else Flatten(parts[..|parts| - 1]) + parts[|parts| - 1]
  }

  /** What a single output validator reports for a path it is handed directly. */
  function SingleOutputProblems(action: SinglePathAction, env: Environment, propertyName: string, p: Path)
    : seq<Report>
  {
    if action == OutputDirectoryValidator then OutputDirectoryProblems(env, propertyName, p)
    else OutputFileProblems(env, propertyName, p)
  }

  /**
   * With a resolver that gives a File back as itself, a collection validator
   * reports the concatenation, in iteration order, of what the single
   * validator reports for each path.
   */
  lemma {:induction false} EachOutputIsValidated(action: SinglePathAction, env: Environment, propertyName: string,
                                                 files: seq<Path>)
    requires action == OutputDirectoryValidator || action == OutputFileValidator
    requires KeepsFiles(env.resolver)
    ensures EachProblems(action, env, propertyName, files) ==
            Flatten(seq(|files|, i requires 0 <= i < |files| => SingleOutputProblems(action, env, propertyName, files[i])))
    decreases |files|
  {
    var parts := seq(|files|, i requires 0 <= i < |files| => SingleOutputProblems(action, env, propertyName, files[i]));
    if files != [] {
      var n := |files| - 1;
      var front := files[..n];
      EachOutputIsValidated(action, env, propertyName, front);
      assert parts[..n] == seq(|front|, i requires 0 <= i < |front| => SingleOutputProblems(action, env, propertyName, front[i]));
      assert env.resolver.file(FileValue(files[n])) == Some(files[n]);
    }
  }

  /** A map contributes its values only, in iteration order; its keys do not matter. */
  lemma MapKeysAreIgnored(action: ValidationAction, env: Environment, propertyName: string,
                          entries1: seq<(string, Value)>, entries2: seq<(string, Value)>)
    requires action == OutputFilesValidator || action == OutputDirectoriesValidator
    requires forall i :: 0 <= i < |entries1| ==> i < |entries2| && entries1[i].1 == entries2[i].1
    requires |entries1| == |entries2|
    ensures ToFiles(env.resolver, MapValue(entries1)) == env.resolver.immutableFiles(Collection(MapValues(entries1)))
    ensures DoValidateOutcome(action, env, propertyName, MapValue(entries1)) ==
            DoValidateOutcome(action, env, propertyName, MapValue(entries2))
  {
    assert MapValues(entries1) == MapValues(entries2);
  }
}
