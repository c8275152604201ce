/** The content server's view of the data directory, and the shape of the
    replies its handlers produce. A file holds its text and what
    `json.loads` makes of that text (None when it raises). A directory
    holds its listing, in the order `os.listdir` returns it. */
module FileSystem {
  import opened Common
  import opened Json
  import Lex

  datatype File = File(text: string, parsed: Option<Json>)

  datatype Fs = Fs(files: map<string, File>, dirs: map<string, seq<string>>)

  /** A Python computation that either gives a value or raises. */
  datatype Py<+T> = Value(v: T) | Raised

  /** What Flask sends: a status and a JSON body, or the 500 page of an
      uncaught exception. */
  datatype Response = Response(status: nat, body: Json) | ServerError

  /** `os.path.join(a, b)` for a relative `b`. */
  function PathJoin(a: string, b: string): string {
    a + "/" + b
  }

  predicate IsDir(fs: Fs, path: string) {
    path in fs.dirs
  }

  /** A real file system: no path is both a file and a directory. */
  predicate WellFormed(fs: Fs) {
    fs.files.Keys !! fs.dirs.Keys
  }

  predicate Exists(fs: Fs, path: string) {
    path in fs.files || path in fs.dirs
  }

  /** The entries of `names` that are subdirectories of `dir`, in order:
      `[d for d in names if os.path.isdir(os.path.join(dir, d))]`. */
  function SubdirNames(fs: Fs, dir: string, names: seq<string>): (r: seq<string>)
    ensures forall n :: n in r <==> n in names && IsDir(fs, PathJoin(dir, n))
    ensures |r| <= |names|
  {
    Lex.Filter(names, InDir(fs, dir))
  }

  /** The test `os.path.isdir(os.path.join(dir, name))` on a listed name. */
  function InDir(fs: Fs, dir: string): string -> bool {
    n => IsDir(fs, PathJoin(dir, n))
  }

  /** `read_file_content(path)`: None for a path that does not exist, the
      text of a file; opening a directory raises. */
  function ReadFileContent(fs: Fs, path: string): (r: Py<Option<string>>)
    ensures r == Value(None) <==> !Exists(fs, path)
    ensures r.Value? && r.v.Some? <==> path in fs.files
    ensures r.Value? && r.v.Some? ==> r.v.value == fs.files[path].text
    ensures r.Raised? <==> path !in fs.files && IsDir(fs, path)
  {
    if path in fs.files then Value(Some(fs.files[path].text))
    else if path in fs.dirs then Raised
    else Value(None)
  }

  /** On a well-formed file system, reading raises exactly at a directory. */
  lemma ReadRaisesAtDir(fs: Fs, path: string)
    requires WellFormed(fs)
    ensures ReadFileContent(fs, path).Raised? <==> IsDir(fs, path)
  {
    if IsDir(fs, path) {
      assert path in fs.dirs.Keys;
    }
  }

  /** `json.loads` of the text just read from `path`. */
  function LoadJson(fs: Fs, path: string): (r: Py<Json>)
    requires path in fs.files
    ensures r.Value? <==> fs.files[path].parsed.Some?
    ensures r.Value? ==> r.v == fs.files[path].parsed.value
  {
    match fs.files[path].parsed
    case Some(j) => Value(j)
    case None => Raised
  }

  /** `jsonify({"error": message}), 404`. */
  function NotFound(message: string): Response {
    Response(404, JObj([Field("error", JStr(message))]))
  }

  function Success(body: Json): Response {
    Response(200, body)
  }

  /** The values `read` gives for the names among `names` that pass
      `keep`, in the order of `names`: a loop that appends one value per
      kept name and stops at the first read that raises. */
  function ReadEach<T>(names: seq<string>, keep: string -> bool, read: string -> Py<T>): Py<seq<T>> {
    if names == [] then Value([])
    else
      var last := names[|names| - 1];
      match ReadEach(names[..|names| - 1], keep, read)
      case Raised => Raised
      case Value(vs) =>
        if keep(last) then
          match read(last)
          case Raised => Raised
          case Value(v) => Value(vs + [v])
        else Value(vs)
  }

  /** Once a prefix of the loop has raised, the whole loop has. */
  lemma {:induction false} ReadEachRaiseStays<T>(names: seq<string>, keep: string -> bool, read: string -> Py<T>, n: nat)
    requires n <= |names| && ReadEach(names[..n], keep, read).Raised?
    ensures ReadEach(names, keep, read).Raised?
    decreases |names| - n
  {
    if n < |names| {
      assert names[..n + 1][..n] == names[..n];
      ReadEachRaiseStays(names, keep, read, n + 1);
    } else {
      assert names[..n] == names;
    }
  }

  /** Value i of a successful loop is read from the i-th kept name. */
  lemma {:induction false} ReadEachShape<T>(names: seq<string>, keep: string -> bool, read: string -> Py<T>)
    requires ReadEach(names, keep, read).Value?
    ensures var vs := ReadEach(names, keep, read).v;
      var kept := Lex.Filter(names, keep);
      |vs| == |kept| && forall i :: 0 <= i < |vs| ==> Value(vs[i]) == read(kept[i])
    decreases |names|
  {
    if names != [] {
      var init, last := names[..|names| - 1], names[|names| - 1];
      ReadEachShape(init, keep, read);
      var vs, vs' := ReadEach(names, keep, read).v, ReadEach(init, keep, read).v;
      var kept, kept' := Lex.Filter(names, keep), Lex.Filter(init, keep);
      assert kept == kept' + (if keep(last) then [last] else []);
      if keep(last) {
        assert vs == vs' + [read(last).v];
        forall i | 0 <= i < |vs| ensures Value(vs[i]) == read(kept[i]) {
          if i < |vs'| {
            assert vs[i] == vs'[i] && kept[i] == kept'[i];
          }
        }
      }
    }
  }
}
