/**
 * The raw values a task property can hold, and the three conversions the
 * validators apply to them: toFile, toDirectory and toFiles.
 *
 * The conversions that are not visible here (the file resolver's
 * `file(Object)` and `immutableFiles(Object)`) are the two functions of a
 * Resolver; None stands for an UnsupportedNotationException.
 */
module Values {
  import opened Wrappers
  import opened FileSystem

  datatype Value =
    | Notation(text: string)                  // any other object: a String, a URI, a Path, ...
    | FileValue(path: Path)                   // a java.io.File
    | FileTree(dir: Path, files: seq<Path>)   // a ConfigurableFileTree: its root and the files it iterates
    | FileCollection(files: seq<Path>)        // any other FileCollection, in its iteration order
    | Collection(elements: seq<Value>)        // a java.util.Collection
    | MapValue(entries: seq<(string, Value)>) // a java.util.Map, in its iteration order

  /** The file operations of a task validation context. */
  datatype Resolver = Resolver(file: Value -> Option<Path>, immutableFiles: Value -> Option<seq<Path>>)

  /** A resolver that gives a java.io.File back as the path it holds. */
  ghost predicate KeepsFiles(r: Resolver) {
    forall p :: r.file(FileValue(p)) == Some(p)
  }

  /** toString() of a value, as it appears in the conversion failure message. */
  function Show(v: Value): string
    decreases v, 1
  {
    match v
    case Notation(text) => text
    case FileValue(p) => Render(p)
    case FileTree(dir, _) => "directory '" + Render(dir) + "'"
    case FileCollection(_) => "file collection"
    case Collection(elements) => "[" + ShowElements(v, elements) + "]"
    case MapValue(entries) => "{" + ShowEntries(v, entries) + "}"
  }

  function ShowElements(ghost parent: Value, elements: seq<Value>): string
    requires forall e :: e in elements ==> e < parent
    decreases parent, 0, |elements|
  {
    if elements == [] then ""
    else
      assert elements[0] in elements;
      assert forall e :: e in elements[1..] ==> e in elements;
      Show(elements[0]) + (if |elements| == 1 then "" else ", " + ShowElements(parent, elements[1..]))
  }

  function ShowEntries(ghost parent: Value, entries: seq<(string, Value)>): string
    requires forall e :: e in entries ==> e.1 < parent
    decreases parent, 0, |entries|
  {
    if entries == [] then ""
    else
      assert entries[0] in entries;
      assert forall e :: e in entries[1..] ==> e in entries;
      entries[0].0 + "=" + Show(entries[0].1) +
         (if |entries| == 1 then "" else ", " + ShowEntries(parent, entries[1..]))
  }

  /** Map.values(): the values of the entries, in iteration order; the keys are dropped. */
  function MapValues(entries: seq<(string, Value)>): (r: seq<Value>)
    ensures |r| == |entries|
    ensures forall i :: 0 <= i < |entries| ==> r[i] == entries[i].1
  {
    if entries == [] then [] else [entries[0].1] + MapValues(entries[1..])
  }

  /** toFile: the file resolver converts the value to one path. */
  function ToFile(r: Resolver, v: Value): Option<Path> {
    r.file(v)
  }

  /** toDirectory: a file tree stands for its root directory; anything else goes through toFile. */
  function ToDirectory(r: Resolver, v: Value): Option<Path> {
    if v.FileTree? then Some(v.dir) else ToFile(r, v)
  }

  /**
   * toFiles: a map is converted through the collection of its values, a file
   * collection (a file tree included) is its own iteration, and anything else
   * goes through the resolver's immutableFiles.
   */
  function ToFiles(r: Resolver, v: Value): Option<seq<Path>>
    decreases if v.MapValue? then 1 else 0
  {
    match v
    case MapValue(entries) => ToFiles(r, Collection(MapValues(entries)))
    case FileTree(_, files) => Some(files)
    case FileCollection(files) => Some(files)
    case _ => r.immutableFiles(v)
  }
}
