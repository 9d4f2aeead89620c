/**
 * The task validation context the validators are handed: the filesystem
 * they probe, the reserved-location policy, the file resolver, and the sink
 * that collects the problems they report.
 */
module TaskValidation {
  import opened FileSystem
  import opened Values
  import opened Problems

  /** What a context offers that does not change during validation. */
  datatype Environment = Environment(fs: FileSystem, reserved: Path -> bool, resolver: Resolver)

  class Context {
    const env: Environment
    /** The problems reported so far, in the order they were reported. */
    var problems: seq<Report>

    constructor (env: Environment)
      ensures this.env == env && problems == []
    {
      this.env := env;
      problems := [];
    }

    /** isInReservedFileSystemLocation. */
    predicate IsInReservedFileSystemLocation(location: Path) {
      env.reserved(location)
    }

    /** The reported problems as the builder produces them. */
    function BuiltProblems(): seq<Problem>
      reads this
    {
      BuildAll(env.fs, problems)
    }

    /** visitPropertyProblem: appends one problem to the sink. */
    method VisitPropertyProblem(problem: Report)
      modifies this
      ensures problems == old(problems) + [problem]
    {
      problems := problems + [problem];
    }
  }
}
