/**
 * The problems the validators report. What a validator hands to the sink is
 * a Report: the report helper that was called and its arguments, which is
 * all the (lazily evaluated) problem builder needs. ToProblem evaluates it
 * to the record of strings that the builder produces.
 */
module Problems {
  import opened Wrappers
  import opened FileSystem
  import opened Values

  datatype ProblemId = InputDoesNotExist | UnexpectedInputType | CannotWriteOutput

  /** Every problem of this core is an error. */
  datatype Severity = Error

  datatype DocAnchor = DocAnchor(topic: string, anchor: string)

  /**
   * A built problem. The plain-message reports carry only a severity and a
   * description; their id, property, cause and documentation are None.
   */
  datatype Problem = Problem(
    id: Option<ProblemId>,
    property: Option<string>,
    severity: Severity,
    description: string,
    cause: Option<string>,
    solutions: seq<string>,
    documentation: Option<DocAnchor>)

  /** Why an output cannot be written: the cause text the output validators pass to their report helper. */
  datatype Reason =
    | NotADirectory(path: Path)                         // "'<path>' is not a directory"
    | NotAFile(path: Path)                              // "'<path>' is not a file"
    | AncestorNotADirectory(path: Path, ancestor: Path) // "'<path>' ancestor '<ancestor>' is not a directory"
  {
    function Text(): string {
      match this
      case NotADirectory(p) => Quoted(p) + " is not a directory"
      case NotAFile(p) => Quoted(p) + " is not a file"
      case AncestorNotADirectory(p, a) => Quoted(p) + " ancestor " + Quoted(a) + " is not a directory"
    }
  }

  /** One call of a report helper, or one plain message, as the sink receives it. */
  datatype Report =
    | MissingInput(kind: string, propertyName: string, input: Path)
    | UnexpectedInputKind(kind: string, propertyName: string, input: Path)
    | CannotWriteToDirectory(propertyName: string, directory: Path, reason: Reason)
    | CannotWriteToFile(propertyName: string, reason: Reason)
    | ReservedLocation(location: Path)
    | NotConvertible(value: Value, propertyName: string, targetType: string)
  {
    /** The problem the builder produces, with the probes made against `fs`. */
    function ToProblem(fs: FileSystem): Problem {
      match this
      case MissingInput(kind, propertyName, input) =>
        var lowerKind := Lower(kind);
        Problem(
          Some(InputDoesNotExist), Some(propertyName), Error,
          lowerKind + " " + Quoted(input) + " doesn't exist",
          Some("An input is missing"),
          ["Make sure the " + lowerKind + " exists before the task is called",
           "Make sure that the task which produces the " + lowerKind + " is declared as an input"],
          Some(DocAnchor("validation_problems", "input_does_not_exist")))
      case UnexpectedInputKind(kind, propertyName, input) =>
        var lowerKind := Lower(kind);
        Problem(
          Some(UnexpectedInputType), Some(propertyName), Error,
          lowerKind + " " + Quoted(input) + " is not a " + lowerKind,
          Some("Expected an input to be a " + lowerKind + " but it was a " + ActualKindOf(fs, input)),
          ["Use a " + lowerKind + " as an input",
           "Declare the input as a " + ActualKindOf(fs, input) + " instead"],
          Some(DocAnchor("validation_problems", "unexpected_input_type")))
      case CannotWriteToDirectory(propertyName, directory, reason) =>
        Problem(
          Some(CannotWriteOutput), Some(propertyName), Error,
          "is not writable because " + reason.Text(),
          Some("Expected " + Quoted(directory) + " to be a directory but it's a " + ActualKindOf(fs, directory)),
          ["Make sure that the '" + propertyName + "' is configured to a directory"],
          Some(DocAnchor("validation_problems", "cannot_write_output")))
      case CannotWriteToFile(propertyName, reason) =>
        Problem(
          Some(CannotWriteOutput), Some(propertyName), Error,
          "is not writable because " + reason.Text(),
          Some("Cannot write a file to a location pointing at a directory"),
          ["Configure '" + propertyName + "' to point to a file, not a directory"],
          Some(DocAnchor("validation_problems", "cannot_write_output")))
      case ReservedLocation(location) =>
        Problem(None, None, Error,
          "The output " + Render(location) + " must not be in a reserved location",
          None, [], None)
      case NotConvertible(value, propertyName, targetType) =>
        Problem(None, None, Error,
          "Value '" + Show(value) + "' specified for property '" + propertyName +
          "' cannot be converted to a " + targetType,
          None, [], None)
    }
  }

  /** The problems a sequence of reports builds, in order. */
  function BuildAll(fs: FileSystem, reports: seq<Report>): (problems: seq<Problem>)
    ensures |problems| == |reports|
    ensures forall i :: 0 <= i < |reports| ==> problems[i] == reports[i].ToProblem(fs)
  {
    if reports == [] then [] else [reports[0].ToProblem(fs)] + BuildAll(fs, reports[1..])
  }

  function LowerChar(c: char): (d: char)
    ensures !('A' <= d <= 'Z')
    ensures !('A' <= c <= 'Z') ==> d == c
  {
    if 'A' <= c <= 'Z' then (c as int - 'A' as int + 'a' as int) as char else c
  }

  /** String.toLowerCase() on ASCII letters, the only ones the kind names use. */
  function Lower(s: string): (r: string)
    ensures |r| == |s|
    ensures forall i :: 0 <= i < |s| ==> r[i] == LowerChar(s[i])
  {
    seq(|s|, i requires 0 <= i < |s| => LowerChar(s[i]))
  }

  /** actualKindOf: a word for what exists at `p`. */
  function ActualKindOf(fs: FileSystem, p: Path): (r: string)
    ensures r == "file" <==> IsFile(fs, p)
    ensures r == "directory" <==> IsDirectory(fs, p)
    ensures r == "unexpected file type" <==> !IsFile(fs, p) && !IsDirectory(fs, p)
  {
    if IsFile(fs, p) then "file"
    else if IsDirectory(fs, p) then "directory"
    else "unexpected file type"
  }

  /** A path between single quotes, as the messages write it. */
  function Quoted(p: Path): string {
    "'" + Render(p) + "'"
  }

  /** The kind names the input validators pass come out in lower case. */
  lemma {:induction false} KindNamesInLowerCase()
    ensures Lower("File") == "file"
    ensures Lower("Directory") == "directory"
  {
    assert Lower("File")[0] == 'f';
    assert Lower("Directory")[0] == 'd';
  }
}
