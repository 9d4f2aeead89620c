/**
 * The seven validation actions of a task property: what each one reports,
 * as functions of the context's environment (the specification), and the
 * methods that report it into the context's sink.
 */
module ValidationActions {
  import opened Wrappers
  import opened FileSystem
  import opened Values
  import opened Problems
  import opened TaskValidation

  datatype ValidationAction =
    | NoOp
    | InputFileValidator
    | InputDirectoryValidator
    | OutputDirectoryValidator
    | OutputDirectoriesValidator
    | OutputFileValidator
    | OutputFilesValidator
  {
    /** The target type named when a value cannot be converted. */
    function TargetType(): string {
      match this
      case NoOp => "file collection"
      case InputFileValidator => "file"
      case InputDirectoryValidator => "directory"
      case OutputDirectoryValidator => "file"
      case OutputDirectoriesValidator => "file collection"
      case OutputFileValidator => "file"
      case OutputFilesValidator => "file collection"
    }

    /** The collection validators delegate to a single-path validator, which ranks below them. */
    function Rank(): nat {
      if OutputDirectoriesValidator? || OutputFilesValidator? then 1 else 0
    }
  }

  // ---------------------------------------------------------------------
  // Specification: the problems each action reports
  // ---------------------------------------------------------------------

  function InputFileProblems(fs: FileSystem, propertyName: string, file: Path): seq<Report> {
    if !Exists(fs, file) then [MissingInput("File", propertyName, file)]
    else if !IsFile(fs, file) then [UnexpectedInputKind("File", propertyName, file)]
    else []
  }

  function InputDirectoryProblems(fs: FileSystem, propertyName: string, directory: Path): seq<Report> {
    if !Exists(fs, directory) then [MissingInput("Directory", propertyName, directory)]
    else if !IsDirectory(fs, directory) then [UnexpectedInputKind("Directory", propertyName, directory)]
    else []
  }

  function ReservedProblems(env: Environment, location: Path): seq<Report> {
    if env.reserved(location) then [ReservedLocation(location)] else []
  }

  /** The kind and ancestor checks of an output directory. */
  function OutputDirectoryKindProblems(fs: FileSystem, propertyName: string, directory: Path): seq<Report> {
    if Exists(fs, directory) then
      if IsDirectory(fs, directory) then []
      else [CannotWriteToDirectory(propertyName, directory, NotADirectory(directory))]
    else
      match BlockingAncestor(fs, directory)
      case None => []
      case Some(a) =>
        [CannotWriteToDirectory(propertyName, a, AncestorNotADirectory(directory, a))]
  }

  /** The kind and ancestor checks of an output file. */
  function OutputFileKindProblems(fs: FileSystem, propertyName: string, file: Path): seq<Report> {
    if Exists(fs, file) then
      if IsDirectory(fs, file) then [CannotWriteToFile(propertyName, NotAFile(file))]
      else []
    else
      match BlockingAncestor(fs, file)
      case None => []
      case Some(a) =>
        [CannotWriteToFile(propertyName, AncestorNotADirectory(file, a))]
  }

  function OutputDirectoryProblems(env: Environment, propertyName: string, directory: Path): seq<Report> {
    ReservedProblems(env, directory) + OutputDirectoryKindProblems(env.fs, propertyName, directory)
  }

  function OutputFileProblems(env: Environment, propertyName: string, file: Path): seq<Report> {
    ReservedProblems(env, file) + OutputFileKindProblems(env.fs, propertyName, file)
  }

  /** The validators that check one path; the other two validate each file of a collection with one of these. */
  type SinglePathAction = a: ValidationAction | a.Rank() == 0 witness NoOp

  /**
   * doValidate of a single-path validator: None when the value cannot be
   * converted (the UnsupportedNotationException), otherwise the problems reported.
   */
  function SinglePathOutcome(action: SinglePathAction, env: Environment, propertyName: string, value: Value)
    : Option<seq<Report>>
  {
    match action
    case NoOp => Some([])
    case InputFileValidator =>
      (match ToFile(env.resolver, value)
       case None => None
       case Some(file) => Some(InputFileProblems(env.fs, propertyName, file)))
    case InputDirectoryValidator =>
      (match ToDirectory(env.resolver, value)
       case None => None
       case Some(directory) => Some(InputDirectoryProblems(env.fs, propertyName, directory)))
    case OutputDirectoryValidator =>
      (match ToFile(env.resolver, value)
       case None => None
       case Some(directory) => Some(OutputDirectoryProblems(env, propertyName, directory)))
    case OutputFileValidator =>
      (match ToFile(env.resolver, value)
       case None => None
       case Some(file) => Some(OutputFileProblems(env, propertyName, file)))
  }

  /** The try/catch of validate: a conversion failure becomes one problem naming the target type. */
  function Caught(action: ValidationAction, propertyName: string, value: Value, outcome: Option<seq<Report>>)
    : seq<Report>
  {
    match outcome
    case None => [NotConvertible(value, propertyName, action.TargetType())]
    case Some(problems) => problems
  }

  /** The problems of validating each file in turn with `action`, in order. */
  function EachProblems(action: SinglePathAction, env: Environment, propertyName: string, files: seq<Path>)
    : seq<Report>
  {
    if files == [] then []
    else
      var file := FileValue(files[|files| - 1]);
      EachProblems(action, env, propertyName, files[..|files| - 1]) +
      Caught(action, propertyName, file, SinglePathOutcome(action, env, propertyName, file))
  }

  /** doValidate of any validator. */
  function DoValidateOutcome(action: ValidationAction, env: Environment, propertyName: string, value: Value)
    : Option<seq<Report>>
  {
    match action
    case OutputDirectoriesValidator =>
      (match ToFiles(env.resolver, value)
       case None => None
       case Some(directories) => Some(EachProblems(OutputDirectoryValidator, env, propertyName, directories)))
    case OutputFilesValidator =>
      (match ToFiles(env.resolver, value)
       case None => None
       case Some(files) => Some(EachProblems(OutputFileValidator, env, propertyName, files)))
    case _ => SinglePathOutcome(action, env, propertyName, value)
  }

  /** validate: what one call reports into the sink. */
  function ProblemsOf(action: ValidationAction, env: Environment, propertyName: string, value: Value): seq<Report> {
    Caught(action, propertyName, value, DoValidateOutcome(action, env, propertyName, value))
  }

  /** Validating one more file appends its problems to those of the files before it. */
  lemma EachProblemsStep(action: SinglePathAction, env: Environment, propertyName: string, files: seq<Path>, i: nat)
    requires i < |files|
    ensures EachProblems(action, env, propertyName, files[..i + 1]) ==
            EachProblems(action, env, propertyName, files[..i]) + ProblemsOf(action, env, propertyName, FileValue(files[i]))
  {
    assert files[..i + 1][..i] == files[..i];
  }

  lemma AppendAssociative<T>(a: seq<T>, b: seq<T>, c: seq<T>)
    ensures a + (b + c) == a + b + c
  {
  }

  // ---------------------------------------------------------------------
  // The validators, reporting into a context
  // ---------------------------------------------------------------------

  /**
   * How doValidate leaves the sink: the outcome's problems appended when the
   * value converted, nothing appended when it did not.
   */
  ghost predicate Reported(before: seq<Report>, after: seq<Report>, converted: bool, outcome: Option<seq<Report>>) {
    converted == outcome.Some? && after == before + (if converted then outcome.value else [])
  }

  /** validate: runs doValidate and reports a value that cannot be converted. */
  method Validate(action: ValidationAction, propertyName: string, value: Value, ctx: Context)
    modifies ctx
    decreases action.Rank(), 2
    ensures ctx.problems == old(ctx.problems) + ProblemsOf(action, ctx.env, propertyName, value)
  {
    var converted := DoValidate(action, propertyName, value, ctx);
    if !converted {
      ctx.VisitPropertyProblem(NotConvertible(value, propertyName, action.TargetType()));
    }
  }

  /** doValidate of each constant; `converted` is false where it would throw UnsupportedNotationException. */
  method DoValidate(action: ValidationAction, propertyName: string, value: Value, ctx: Context)
    returns (converted: bool)
    modifies ctx
    decreases action.Rank(), 1
    ensures Reported(old(ctx.problems), ctx.problems, converted, DoValidateOutcome(action, ctx.env, propertyName, value))
  {
    match action
    case NoOp =>
      converted := true;
    case InputFileValidator =>
      converted := ValidateInputFile(propertyName, value, ctx);
    case InputDirectoryValidator =>
      converted := ValidateInputDirectory(propertyName, value, ctx);
    case OutputDirectoryValidator =>
      converted := ValidateOutputDirectory(propertyName, value, ctx);
    case OutputDirectoriesValidator =>
      converted := ValidateOutputDirectories(propertyName, value, ctx);
    case OutputFileValidator =>
      converted := ValidateOutputFile(propertyName, value, ctx);
    case OutputFilesValidator =>
      converted := ValidateOutputFiles(propertyName, value, ctx);
  }

  method ValidateInputFile(propertyName: string, value: Value, ctx: Context) returns (converted: bool)
    modifies ctx
    ensures Reported(old(ctx.problems), ctx.problems, converted, DoValidateOutcome(InputFileValidator, ctx.env, propertyName, value))
  {
    var resolved := ToFile(ctx.env.resolver, value);
    if resolved.None? {
      return false;
    }
    converted := true;
    var file := resolved.value;
    if !Exists(ctx.env.fs, file) {
      ReportMissingInput(ctx, "File", propertyName, file);
    } else if !IsFile(ctx.env.fs, file) {
      ReportUnexpectedInputKind(ctx, "File", propertyName, file);
    }
  }

  method ValidateInputDirectory(propertyName: string, value: Value, ctx: Context) returns (converted: bool)
    modifies ctx
    ensures Reported(old(ctx.problems), ctx.problems, converted, DoValidateOutcome(InputDirectoryValidator, ctx.env, propertyName, value))
  {
    var resolved := ToDirectory(ctx.env.resolver, value);
    if resolved.None? {
      return false;
    }
    converted := true;
    var directory := resolved.value;
    if !Exists(ctx.env.fs, directory) {
      ReportMissingInput(ctx, "Directory", propertyName, directory);
    } else if !IsDirectory(ctx.env.fs, directory) {
      ReportUnexpectedInputKind(ctx, "Directory", propertyName, directory);
    }
  }

  method ValidateOutputDirectory(propertyName: string, value: Value, ctx: Context) returns (converted: bool)
    modifies ctx
    ensures Reported(old(ctx.problems), ctx.problems, converted, DoValidateOutcome(OutputDirectoryValidator, ctx.env, propertyName, value))
  {
    var resolved := ToFile(ctx.env.resolver, value);
    if resolved.None? {
      return false;
    }
    converted := true;
    var directory := resolved.value;
    var fs := ctx.env.fs;
    ValidateNotInReservedFileSystemLocation(ctx, directory);
    if Exists(fs, directory) {
      if !IsDirectory(fs, directory) {
        ReportCannotWriteToDirectory(propertyName, ctx, directory, NotADirectory(directory));
      }
    } else {
      var candidate := Parent(directory);
      while candidate.Some? && !IsDirectory(fs, candidate.value)
        invariant WalkFrom(fs, candidate) == BlockingAncestor(fs, directory)
        invariant ctx.problems == old(ctx.problems) + ReservedProblems(ctx.env, directory)
        decreases if candidate.Some? then |candidate.value| + 1 else 0
      {
        var c := candidate.value;
        if Exists(fs, c) && !IsDirectory(fs, c) {
          ReportCannotWriteToDirectory(propertyName, ctx, c, AncestorNotADirectory(directory, c));
          return;
        }
        candidate := Parent(c);
      }
    }
  }

  method ValidateOutputDirectories(propertyName: string, values: Value, ctx: Context) returns (converted: bool)
    modifies ctx
    decreases 1, 0
    ensures Reported(old(ctx.problems), ctx.problems, converted, DoValidateOutcome(OutputDirectoriesValidator, ctx.env, propertyName, values))
  {
    var resolved := ToFiles(ctx.env.resolver, values);
    if resolved.None? {
      return false;
    }
    converted := true;
    var directories := resolved.value;
    ValidateEach(OutputDirectoryValidator, propertyName, directories, ctx);
  }

  method ValidateOutputFile(propertyName: string, value: Value, ctx: Context) returns (converted: bool)
    modifies ctx
    ensures Reported(old(ctx.problems), ctx.problems, converted, DoValidateOutcome(OutputFileValidator, ctx.env, propertyName, value))
  {
    var resolved := ToFile(ctx.env.resolver, value);
    if resolved.None? {
      return false;
    }
    converted := true;
    var file := resolved.value;
    var fs := ctx.env.fs;
    ValidateNotInReservedFileSystemLocation(ctx, file);
    if Exists(fs, file) {
      if IsDirectory(fs, file) {
        ReportCannotWriteToFile(propertyName, ctx, NotAFile(file));
      }
      // anything that exists and is not a directory is taken to be writable
    } else {
      var candidate := Parent(file);
      while candidate.Some? && !IsDirectory(fs, candidate.value)
        invariant WalkFrom(fs, candidate) == BlockingAncestor(fs, file)
        invariant ctx.problems == old(ctx.problems) + ReservedProblems(ctx.env, file)
        decreases if candidate.Some? then |candidate.value| + 1 else 0
      {
        var c := candidate.value;
        if Exists(fs, c) && !IsDirectory(fs, c) {
          ReportCannotWriteToFile(propertyName, ctx, AncestorNotADirectory(file, c));
          break;
        }
        candidate := Parent(c);
      }
    }
  }

  method ValidateOutputFiles(propertyName: string, values: Value, ctx: Context) returns (converted: bool)
    modifies ctx
    decreases 1, 0
    ensures Reported(old(ctx.problems), ctx.problems, converted, DoValidateOutcome(OutputFilesValidator, ctx.env, propertyName, values))
  {
    var resolved := ToFiles(ctx.env.resolver, values);
    if resolved.None? {
      return false;
    }
    converted := true;
    var files := resolved.value;
    ValidateEach(OutputFileValidator, propertyName, files, ctx);
  }

  /** The loop of the collection validators: validates each file in turn with `action`. */
  method ValidateEach(action: SinglePathAction, propertyName: string, files: seq<Path>, ctx: Context)
    modifies ctx
    decreases action.Rank(), 3
    ensures ctx.problems == old(ctx.problems) + EachProblems(action, ctx.env, propertyName, files)
  {
    for i := 0 to |files|
      invariant ctx.problems == old(ctx.problems) + EachProblems(action, ctx.env, propertyName, files[..i])
    {
      EachProblemsStep(action, ctx.env, propertyName, files, i);
      AppendAssociative(old(ctx.problems), EachProblems(action, ctx.env, propertyName, files[..i]),
                        ProblemsOf(action, ctx.env, propertyName, FileValue(files[i])));
      Validate(action, propertyName, FileValue(files[i]), ctx);
    }
    assert files[..|files|] == files;
  }

  // ---------------------------------------------------------------------
  // The report helpers
  // ---------------------------------------------------------------------

  method ReportMissingInput(ctx: Context, kind: string, propertyName: string, input: Path)
    modifies ctx
    ensures ctx.problems == old(ctx.problems) + [MissingInput(kind, propertyName, input)]
  {
    ctx.VisitPropertyProblem(MissingInput(kind, propertyName, input));
  }

  method ReportUnexpectedInputKind(ctx: Context, kind: string, propertyName: string, input: Path)
    modifies ctx
    ensures ctx.problems == old(ctx.problems) + [UnexpectedInputKind(kind, propertyName, input)]
  {
    ctx.VisitPropertyProblem(UnexpectedInputKind(kind, propertyName, input));
  }

  method ReportCannotWriteToDirectory(propertyName: string, ctx: Context, directory: Path, cause: Reason)
    modifies ctx
    ensures ctx.problems == old(ctx.problems) + [CannotWriteToDirectory(propertyName, directory, cause)]
  {
    ctx.VisitPropertyProblem(CannotWriteToDirectory(propertyName, directory, cause));
  }

  method ReportCannotWriteToFile(propertyName: string, ctx: Context, cause: Reason)
    modifies ctx
    ensures ctx.problems == old(ctx.problems) + [CannotWriteToFile(propertyName, cause)]
  {
    ctx.VisitPropertyProblem(CannotWriteToFile(propertyName, cause));
  }

  method ValidateNotInReservedFileSystemLocation(ctx: Context, location: Path)
    modifies ctx
    ensures ctx.problems == old(ctx.problems) + ReservedProblems(ctx.env, location)
  {
    if ctx.IsInReservedFileSystemLocation(location) {
      ctx.VisitPropertyProblem(ReservedLocation(location));
    }
  }
}
