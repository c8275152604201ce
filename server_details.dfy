/** The three detail endpoints of the content server: a problem bundle with
    its samples, a solution with its authors, and a contest bundle. */
module ServerDetails {
  import opened Common
  import opened Json
  import opened FileSystem
  import Lex

  function ProblemDir(root: string, problemId: string): string {
    PathJoin(PathJoin(root, "problems"), problemId)
  }

  function ContestDir(root: string, contestId: string): string {
    PathJoin(PathJoin(root, "contests"), contestId)
  }

  function DetailsPath(dir: string, name: string): string {
    PathJoin(PathJoin(dir, "details"), name)
  }

  /** A content/path pair whose path is null exactly when the content is
      falsy. */
  predicate IsPair(j: Json) {
    && j.JObj? && Keys(j.fields) == ["content", "file_path"]
    && (j.fields[1].value.JNull? <==> !PyTruthy(j.fields[0].value))
  }

  /** `{"content": content, "file_path": path if content else None}`. */
  function Pair(content: Json, path: string): (j: Json)
    ensures IsPair(j)
    ensures Lookup(j.fields, "content") == Some(content)
    ensures Lookup(j.fields, "file_path") == Some(JStr(path)) <==> PyTruthy(content)
    ensures Lookup(j.fields, "file_path") == Some(JNull) <==> !PyTruthy(content)
  {
    JObj([Field("content", content), Field("file_path", if PyTruthy(content) then JStr(path) else JNull)])
  }

  /** `get_content_with_path(path, is_json)`: the text, decoded when it is
      a non-empty JSON file, paired with the path when that content is
      truthy. A missing file gives a null content and a null path. */
  function ContentWithPath(fs: Fs, path: string, isJson: bool): (r: Py<Json>)
    ensures r.Raised? <==>
      ((path in fs.dirs && path !in fs.files) ||
       (isJson && path in fs.files && fs.files[path].text != "" && fs.files[path].parsed.None?))
    ensures r.Value? ==> IsPair(r.v)
    ensures r.Value? && !Exists(fs, path) ==> r.v == Pair(JNull, path)
    ensures r.Value? && path in fs.files && (!isJson || fs.files[path].text == "") ==>
      r.v == Pair(StrOrNull(Some(fs.files[path].text)), path)
    ensures r.Value? && path in fs.files && isJson && fs.files[path].text != "" ==>
      r.v == Pair(fs.files[path].parsed.value, path)
  {
    match ReadFileContent(fs, path)
    case Raised => Raised
    case Value(content) =>
      if Truthy(content) && isJson then
        match LoadJson(fs, path)
        case Raised => Raised
        case Value(j) => Value(Pair(j, path))
      else Value(Pair(StrOrNull(content), path))
  }

  /** A text section names its file exactly when the file exists and is not
      empty. */
  lemma TextSectionPairing(fs: Fs, path: string)
    requires path !in fs.dirs || path in fs.files
    ensures ContentWithPath(fs, path, false).Value?
    ensures var j := ContentWithPath(fs, path, false).v;
      (Lookup(j.fields, "file_path") == Some(JStr(path)) <==> path in fs.files && fs.files[path].text != "") &&
      (Lookup(j.fields, "content") == Some(JNull) <==> path !in fs.files)
  {
  }

  // ---- get_problem_detail ----

  /** `open(path)` on a directory raises. */
  predicate OpensDirectory(fs: Fs, path: string) {
    path in fs.dirs && path !in fs.files
  }

  /** `json.loads` on the non-empty text of the file raises. */
  predicate UndecodableText(fs: Fs, path: string) {
    path in fs.files && fs.files[path].text != "" && fs.files[path].parsed.None?
  }

  /** `problem_data['meta']`: the decoded meta.json, or {} when the file is
      missing or empty, always with the path of meta.json. */
  function MetaSection(fs: Fs, dir: string): (r: Py<Json>)
    ensures var path := PathJoin(dir, "meta.json");
      && (r.Value? ==> r.v.JObj? && Keys(r.v.fields) == ["content", "file_path"] &&
                       Lookup(r.v.fields, "file_path") == Some(JStr(path)))
      && (r.Value? && (path !in fs.files || fs.files[path].text == "") ==>
            Lookup(r.v.fields, "content") == Some(JObj([])))
      && (r.Value? && path in fs.files && fs.files[path].text != "" ==>
            Lookup(r.v.fields, "content") == fs.files[path].parsed)
    ensures var path := PathJoin(dir, "meta.json");
      r.Raised? <==> OpensDirectory(fs, path) || UndecodableText(fs, path)
  {
    var path := PathJoin(dir, "meta.json");
    match ReadFileContent(fs, path)
    case Raised => Raised
    case Value(content) =>
      if Truthy(content) then
        match LoadJson(fs, path)
        case Raised => Raised
        case Value(j) => Value(JObj([Field("content", j), Field("file_path", JStr(path))]))
      else Value(JObj([Field("content", JObj([])), Field("file_path", JStr(path))]))
  }

  /** One element of `samples_data`, read from a sample folder. */
  function SampleJson(fs: Fs, path: string): (r: Py<Json>)
    ensures r.Raised? <==>
      ReadFileContent(fs, PathJoin(path, "input.md")).Raised? ||
      ReadFileContent(fs, PathJoin(path, "output.md")).Raised? ||
      ReadFileContent(fs, PathJoin(path, "description.md")).Raised?
    ensures r.Value? ==>
      && r.v.JObj? && Keys(r.v.fields) == ["input", "output", "description"]
      && r.v.fields[0].value == StrOrNull(ReadFileContent(fs, PathJoin(path, "input.md")).v)
      && r.v.fields[1].value == StrOrNull(ReadFileContent(fs, PathJoin(path, "output.md")).v)
      && r.v.fields[2].value == StrOrNull(ReadFileContent(fs, PathJoin(path, "description.md")).v)
  {
    match (ReadFileContent(fs, PathJoin(path, "input.md")),
           ReadFileContent(fs, PathJoin(path, "output.md")),
           ReadFileContent(fs, PathJoin(path, "description.md")))
    case (Value(i), Value(o), Value(d)) =>
      Value(JObj([Field("input", StrOrNull(i)), Field("output", StrOrNull(o)), Field("description", StrOrNull(d))]))
    case _ => Raised
  }

  /** Reading the sample in folder `name` of `dir`. */
  function SampleAt(fs: Fs, dir: string): string -> Py<Json> {
    n => SampleJson(fs, PathJoin(dir, n))
  }

  /** The samples read from the folders among `names`, in the order of
      `names`; entries that are not folders are skipped. */
  function SamplesFrom(fs: Fs, dir: string, names: seq<string>): Py<seq<Json>> {
    ReadEach(names, InDir(fs, dir), SampleAt(fs, dir))
  }

  function SamplesDir(problemDir: string): string {
    DetailsPath(problemDir, "samples")
  }

  /** `samples_data`: empty without a samples folder. */
  function SamplesOf(fs: Fs, problemDir: string): Py<seq<Json>> {
    var dir := SamplesDir(problemDir);
    if !IsDir(fs, dir) then Value([]) else SamplesFrom(fs, dir, Lex.SortStrings(fs.dirs[dir]))
  }

  /** The loop over `sorted(os.listdir(samples_dir))`. */
  method ReadSamples(fs: Fs, problemDir: string) returns (r: Py<seq<Json>>)
    ensures r == SamplesOf(fs, problemDir)
  {
    var dir := SamplesDir(problemDir);
    if !IsDir(fs, dir) {
      return Value([]);
    }
    var names := Lex.SortStrings(fs.dirs[dir]);
    var samplesData: seq<Json> := [];
    var i := 0;
    while i < |names|
      invariant 0 <= i <= |names|
      invariant SamplesFrom(fs, dir, names[..i]) == Value(samplesData)
    {
      assert names[..i + 1][..i] == names[..i];
      var samplePath := PathJoin(dir, names[i]);
      if IsDir(fs, samplePath) {
        var sample := SampleJson(fs, samplePath);
        if sample.Raised? {
          ReadEachRaiseStays(names, InDir(fs, dir), SampleAt(fs, dir), i + 1);
          return Raised;
        }
        samplesData := samplesData + [sample.v];
      }
      i := i + 1;
    }
    assert names[..i] == names;
    return Value(samplesData);
  }

  /** Sample i is read from the i-th folder among `names`. */
  lemma SamplesFromShape(fs: Fs, dir: string, names: seq<string>)
    requires SamplesFrom(fs, dir, names).Value?
    ensures var ss := SamplesFrom(fs, dir, names).v;
      var folders := SubdirNames(fs, dir, names);
      |ss| == |folders| && forall i :: 0 <= i < |ss| ==> Value(ss[i]) == SampleJson(fs, PathJoin(dir, folders[i]))
  {
    ReadEachShape(names, InDir(fs, dir), SampleAt(fs, dir));
  }

  /** The samples come from the folders of the samples directory, one per
      folder, the folders in ascending name order; files there are
      ignored. */
  lemma SamplesInOrder(fs: Fs, problemDir: string)
    requires IsDir(fs, SamplesDir(problemDir)) && SamplesOf(fs, problemDir).Value?
    ensures var dir := SamplesDir(problemDir);
      var folders := SubdirNames(fs, dir, Lex.SortStrings(fs.dirs[dir]));
      var ss := SamplesOf(fs, problemDir).v;
      && |ss| == |folders|
      && (forall i :: 0 <= i < |ss| ==> Value(ss[i]) == SampleJson(fs, PathJoin(dir, folders[i])))
      && Lex.SortedLex(folders)
      && (forall n :: n in folders <==> n in fs.dirs[dir] && IsDir(fs, PathJoin(dir, n)))
  {
    var dir := SamplesDir(problemDir);
    var names := Lex.SortStrings(fs.dirs[dir]);
    SamplesFromShape(fs, dir, names);
    Lex.SortStringsSorts(fs.dirs[dir]);
    Lex.FilterSorted(names, InDir(fs, dir));
    Lex.SortStringsPermutes(fs.dirs[dir]);
    forall n ensures n in names <==> n in fs.dirs[dir] {
      assert n in names <==> n in multiset(names);
      assert n in fs.dirs[dir] <==> n in multiset(fs.dirs[dir]);
    }
  }

  const ProblemFieldNames := ["meta", "description", "input", "output", "constraints", "notes", "absolute_path", "samples_data"]

  /** Proof helper: appending eight singletons one at a time to the empty
      sequence gives the eight-element literal. */
  lemma AppendEight<T>(a: T, b: T, c: T, d: T, e: T, f: T, g: T, h: T)
    ensures [] + [a] + [b] + [c] + [d] + [e] + [f] + [g] + [h] == [a, b, c, d, e, f, g, h]
  {
  }

  /** Proof helper: the same for six singletons. */
  lemma AppendSix<T>(a: T, b: T, c: T, d: T, e: T, f: T)
    ensures [] + [a] + [b] + [c] + [d] + [e] + [f] == [a, b, c, d, e, f]
  {
  }

  /** The members of a problem bundle, in the order the handler adds them. */
  function ProblemFields(m: Json, d: Json, i: Json, o: Json, c: Json, n: Json, dir: string, ss: seq<Json>): seq<Field> {
    [Field("meta", m), Field("description", d), Field("input", i), Field("output", o),
     Field("constraints", c), Field("notes", n), Field("absolute_path", JStr(dir)),
     Field("samples_data", JArr(ss))]
  }

  /** What `get_problem_detail` answers. */
  function ProblemDetailReply(fs: Fs, root: string, problemId: string): Response {
    var dir := ProblemDir(root, problemId);
    if !IsDir(fs, dir) then NotFound("Problem not found")
    else
      var m := MetaSection(fs, dir);
      var d := ContentWithPath(fs, DetailsPath(dir, "description.md"), false);
      var i := ContentWithPath(fs, DetailsPath(dir, "input.md"), false);
      var o := ContentWithPath(fs, DetailsPath(dir, "output.md"), false);
      var c := ContentWithPath(fs, DetailsPath(dir, "constraints.md"), false);
      var n := ContentWithPath(fs, DetailsPath(dir, "notes.md"), false);
      var ss := SamplesOf(fs, dir);
      if m.Raised? || d.Raised? || i.Raised? || o.Raised? || c.Raised? || n.Raised? || ss.Raised? then ServerError
      else Success(JObj(ProblemFields(m.v, d.v, i.v, o.v, c.v, n.v, dir, ss.v)))
  }

  /** `get_problem_detail`, building the reply member by member. */
  method GetProblemDetail(fs: Fs, root: string, problemId: string) returns (r: Response)
    ensures r == ProblemDetailReply(fs, root, problemId)
  {
    var dir := ProblemDir(root, problemId);
    if !IsDir(fs, dir) {
      return NotFound("Problem not found");
    }
    var meta := MetaSection(fs, dir);
    if meta.Raised? {
      return ServerError;
    }
    var description := ContentWithPath(fs, DetailsPath(dir, "description.md"), false);
    if description.Raised? {
      return ServerError;
    }
    var input := ContentWithPath(fs, DetailsPath(dir, "input.md"), false);
    if input.Raised? {
      return ServerError;
    }
    var output := ContentWithPath(fs, DetailsPath(dir, "output.md"), false);
    if output.Raised? {
      return ServerError;
    }
    var constraints := ContentWithPath(fs, DetailsPath(dir, "constraints.md"), false);
    if constraints.Raised? {
      return ServerError;
    }
    var notes := ContentWithPath(fs, DetailsPath(dir, "notes.md"), false);
    if notes.Raised? {
      return ServerError;
    }
    var problemData: seq<Field> := [];
    problemData := problemData + [Field("meta", meta.v)];
    problemData := problemData + [Field("description", description.v)];
    problemData := problemData + [Field("input", input.v)];
    problemData := problemData + [Field("output", output.v)];
    problemData := problemData + [Field("constraints", constraints.v)];
    problemData := problemData + [Field("notes", notes.v)];
    problemData := problemData + [Field("absolute_path", JStr(dir))];
    var samples := ReadSamples(fs, dir);
    if samples.Raised? {
      return ServerError;
    }
    problemData := problemData + [Field("samples_data", JArr(samples.v))];
    AppendEight(Field("meta", meta.v), Field("description", description.v), Field("input", input.v),
                Field("output", output.v), Field("constraints", constraints.v), Field("notes", notes.v),
                Field("absolute_path", JStr(dir)), Field("samples_data", JArr(samples.v)));
    assert problemData == ProblemFields(meta.v, description.v, input.v, output.v, constraints.v, notes.v, dir, samples.v);
    assert ProblemDetailReply(fs, root, problemId) == Success(JObj(problemData));
    return Success(JObj(problemData));
  }

  /** A bundle built from a meta member has the eight members in order, the
      first of them that meta member. */
  lemma ProblemFieldsShape(m: Json, d: Json, i: Json, o: Json, c: Json, n: Json, dir: string, ss: seq<Json>)
    ensures var fields := ProblemFields(m, d, i, o, c, n, dir, ss);
      Keys(fields) == ProblemFieldNames && fields[0].value == m
  {
    assert Keys(ProblemFields(m, d, i, o, c, n, dir, ss)) == ProblemFieldNames;
  }

  /** The 404 comes exactly for a missing problem folder; a full reply has
      the eight members in order, the meta member always naming meta.json. */
  lemma ProblemDetailShape(fs: Fs, root: string, problemId: string)
    ensures ProblemDetailReply(fs, root, problemId) == NotFound("Problem not found") <==> !IsDir(fs, ProblemDir(root, problemId))
    ensures var r := ProblemDetailReply(fs, root, problemId);
      r.Response? && r.status == 200 ==>
        && r.body.JObj? && Keys(r.body.fields) == ProblemFieldNames
        && r.body.fields[0].value == MetaSection(fs, ProblemDir(root, problemId)).v
        && Lookup(r.body.fields[0].value.fields, "file_path") == Some(JStr(PathJoin(ProblemDir(root, problemId), "meta.json")))
    ensures var dir := ProblemDir(root, problemId);
      ProblemDetailReply(fs, root, problemId) == ServerError <==>
        && IsDir(fs, dir)
        && (|| OpensDirectory(fs, PathJoin(dir, "meta.json")) || UndecodableText(fs, PathJoin(dir, "meta.json"))
            || OpensDirectory(fs, DetailsPath(dir, "description.md")) || OpensDirectory(fs, DetailsPath(dir, "input.md"))
            || OpensDirectory(fs, DetailsPath(dir, "output.md")) || OpensDirectory(fs, DetailsPath(dir, "constraints.md"))
            || OpensDirectory(fs, DetailsPath(dir, "notes.md"))
            || SamplesOf(fs, dir).Raised?)
  {
    var dir := ProblemDir(root, problemId);
    if IsDir(fs, dir) {
      var m := MetaSection(fs, dir);
      var d := ContentWithPath(fs, DetailsPath(dir, "description.md"), false);
      var i := ContentWithPath(fs, DetailsPath(dir, "input.md"), false);
      var o := ContentWithPath(fs, DetailsPath(dir, "output.md"), false);
      var c := ContentWithPath(fs, DetailsPath(dir, "constraints.md"), false);
      var n := ContentWithPath(fs, DetailsPath(dir, "notes.md"), false);
      var ss := SamplesOf(fs, dir);
      if !(m.Raised? || d.Raised? || i.Raised? || o.Raised? || c.Raised? || n.Raised? || ss.Raised?) {
        ProblemFieldsShape(m.v, d.v, i.v, o.v, c.v, n.v, dir, ss.v);
      }
    }
  }

  // ---- get_solution ----

  function SolutionPath(root: string, problemId: string): string {
    PathJoin(PathJoin(PathJoin(root, "solutions"), problemId), "solution.md")
  }

  /** `authors`: the "authors" member of the problem's meta.json, [] when
      the file is missing, empty or has no such member. Meta text that does
      not decode, or decodes to something other than an object (which has
      no `get`), raises. */
  function SolutionAuthors(fs: Fs, metaPath: string): (r: Py<Json>)
    ensures ((metaPath !in fs.dirs || metaPath in fs.files) &&
             (metaPath !in fs.files || fs.files[metaPath].text == "")) ==> r == Value(JArr([]))
    ensures metaPath in fs.files && fs.files[metaPath].text != "" ==>
      (r.Value? <==> fs.files[metaPath].parsed.Some? && fs.files[metaPath].parsed.value.JObj?)
  {
    match ReadFileContent(fs, metaPath)
    case Raised => Raised
    case Value(content) =>
      if !Truthy(content) then Value(JArr([]))
      else
        match LoadJson(fs, metaPath)
        case Raised => Raised
        case Value(JObj(fields)) => Value(GetOr(fields, "authors", JArr([])))
        case Value(_) => Raised
  }

  /** What `get_solution` answers. */
  function SolutionReply(fs: Fs, root: string, problemId: string): Response {
    var solutionPath := SolutionPath(root, problemId);
    match ReadFileContent(fs, solutionPath)
    case Raised => ServerError
    case Value(None) => NotFound("Solution not found")
    case Value(Some(content)) =>
      match SolutionAuthors(fs, PathJoin(ProblemDir(root, problemId), "meta.json"))
      case Raised => ServerError
      case Value(authors) =>
        Success(JObj([Field("solution", JObj([Field("content", JStr(content)),
                                              Field("file_path", JStr(solutionPath)),
                                              Field("authors", authors)]))]))
  }

  /** The 404 comes exactly when solution.md does not exist, and the 500
      exactly when solution.md is a directory or, solution.md existing, the
      problem's meta.json is a directory or holds text that does not decode
      to an object; a full reply carries its text, its path, and the authors
      from the problem's meta data, [] when that meta data has none. */
  lemma SolutionReplyShape(fs: Fs, root: string, problemId: string)
    ensures SolutionReply(fs, root, problemId) == NotFound("Solution not found") <==>
      !Exists(fs, SolutionPath(root, problemId))
    ensures var r := SolutionReply(fs, root, problemId);
      var path := SolutionPath(root, problemId);
      r.Response? && r.status == 200 ==>
        && path in fs.files
        && r.body == JObj([Field("solution", JObj([Field("content", JStr(fs.files[path].text)),
                                                   Field("file_path", JStr(path)),
                                                   Field("authors", SolutionAuthors(fs, PathJoin(ProblemDir(root, problemId), "meta.json")).v)]))])
    ensures var metaPath := PathJoin(ProblemDir(root, problemId), "meta.json");
      var r := SolutionReply(fs, root, problemId);
      r.Response? && r.status == 200 && metaPath in fs.files && fs.files[metaPath].text != "" ==>
        && fs.files[metaPath].parsed.Some? && fs.files[metaPath].parsed.value.JObj?
        && r.body.fields[0].value.fields[2].value == GetOr(fs.files[metaPath].parsed.value.fields, "authors", JArr([]))
    ensures var path := SolutionPath(root, problemId);
      var metaPath := PathJoin(ProblemDir(root, problemId), "meta.json");
      SolutionReply(fs, root, problemId) == ServerError <==>
        || OpensDirectory(fs, path)
        || (&& path in fs.files
            && (|| OpensDirectory(fs, metaPath)
                || (&& metaPath in fs.files && fs.files[metaPath].text != ""
                    && !(fs.files[metaPath].parsed.Some? && fs.files[metaPath].parsed.value.JObj?))))
  {
  }

  // ---- get_contest_detail ----

  const ContestFieldNames := ["meta", "contest", "leaderboard", "participants", "theory", "absolute_path"]

  /** The members of a contest bundle, in the order the handler adds them. */
  function ContestFields(m: Json, c: Json, l: Json, p: Json, t: Json, dir: string): seq<Field> {
    [Field("meta", m), Field("contest", c), Field("leaderboard", l), Field("participants", p),
     Field("theory", t), Field("absolute_path", JStr(dir))]
  }

  /** What `get_contest_detail` answers. */
  function ContestDetailReply(fs: Fs, root: string, contestId: string): Response {
    var dir := ContestDir(root, contestId);
    if !IsDir(fs, dir) then NotFound("Contest not found")
    else
      var m := ContentWithPath(fs, PathJoin(dir, "meta.json"), true);
      var c := ContentWithPath(fs, PathJoin(dir, "contest.md"), false);
      var l := ContentWithPath(fs, PathJoin(dir, "leaderboard.json"), true);
      var p := ContentWithPath(fs, PathJoin(dir, "participants.json"), true);
      var t := ContentWithPath(fs, PathJoin(dir, "theory.md"), false);
      if m.Raised? || c.Raised? || l.Raised? || p.Raised? || t.Raised? then ServerError
      else Success(JObj(ContestFields(m.v, c.v, l.v, p.v, t.v, dir)))
  }

  /** `get_contest_detail`, building the reply member by member. */
  method GetContestDetail(fs: Fs, root: string, contestId: string) returns (r: Response)
    ensures r == ContestDetailReply(fs, root, contestId)
  {
    var dir := ContestDir(root, contestId);
    if !IsDir(fs, dir) {
      return NotFound("Contest not found");
    }
    var meta := ContentWithPath(fs, PathJoin(dir, "meta.json"), true);
    if meta.Raised? {
      return ServerError;
    }
    var contest := ContentWithPath(fs, PathJoin(dir, "contest.md"), false);
    if contest.Raised? {
      return ServerError;
    }
    var leaderboard := ContentWithPath(fs, PathJoin(dir, "leaderboard.json"), true);
    if leaderboard.Raised? {
      return ServerError;
    }
    var participants := ContentWithPath(fs, PathJoin(dir, "participants.json"), true);
    if participants.Raised? {
      return ServerError;
    }
    var theory := ContentWithPath(fs, PathJoin(dir, "theory.md"), false);
    if theory.Raised? {
      return ServerError;
    }
    var contestData: seq<Field> := [];
    contestData := contestData + [Field("meta", meta.v)];
    contestData := contestData + [Field("contest", contest.v)];
    contestData := contestData + [Field("leaderboard", leaderboard.v)];
    contestData := contestData + [Field("participants", participants.v)];
    contestData := contestData + [Field("theory", theory.v)];
    contestData := contestData + [Field("absolute_path", JStr(dir))];
    AppendSix(Field("meta", meta.v), Field("contest", contest.v), Field("leaderboard", leaderboard.v),
              Field("participants", participants.v), Field("theory", theory.v), Field("absolute_path", JStr(dir)));
    assert contestData == ContestFields(meta.v, contest.v, leaderboard.v, participants.v, theory.v, dir);
    assert ContestDetailReply(fs, root, contestId) == Success(JObj(contestData));
    return Success(JObj(contestData));
  }

  /** A bundle built from five content/path pairs has the six members in
      order, none of them "rules", and its first five values are pairs. */
  lemma ContestFieldsShape(m: Json, c: Json, l: Json, p: Json, t: Json, dir: string)
    requires IsPair(m) && IsPair(c) && IsPair(l) && IsPair(p) && IsPair(t)
    ensures var fields := ContestFields(m, c, l, p, t, dir);
      && Keys(fields) == ContestFieldNames
      && Lookup(fields, "rules").None?
      && forall i :: 0 <= i < 5 ==> IsPair(fields[i].value)
  {
    var fields := ContestFields(m, c, l, p, t, dir);
    assert Keys(fields) == ContestFieldNames;
    assert "rules" !in ContestFieldNames by {
      assert forall i :: 0 <= i < |ContestFieldNames| ==> ContestFieldNames[i] != "rules";
    }
  }

  /** The 404 comes exactly for a missing contest folder, and the 500
      exactly when, the folder existing, one of its five files is a
      directory or one of its three JSON files holds undecodable text; a
      full reply has the six members in order and no "rules" member, and
      each decoded section names its file exactly when its content is
      truthy. */
  lemma ContestDetailShape(fs: Fs, root: string, contestId: string)
    ensures ContestDetailReply(fs, root, contestId) == NotFound("Contest not found") <==>
      !IsDir(fs, ContestDir(root, contestId))
    ensures var r := ContestDetailReply(fs, root, contestId);
      r.Response? && r.status == 200 ==>
        && r.body.JObj? && Keys(r.body.fields) == ContestFieldNames
        && Lookup(r.body.fields, "rules").None?
        && forall i :: 0 <= i < 5 ==> IsPair(r.body.fields[i].value)
    ensures var dir := ContestDir(root, contestId);
      ContestDetailReply(fs, root, contestId) == ServerError <==>
        && IsDir(fs, dir)
        && (|| OpensDirectory(fs, PathJoin(dir, "meta.json")) || UndecodableText(fs, PathJoin(dir, "meta.json"))
            || OpensDirectory(fs, PathJoin(dir, "contest.md"))
            || OpensDirectory(fs, PathJoin(dir, "leaderboard.json")) || UndecodableText(fs, PathJoin(dir, "leaderboard.json"))
            || OpensDirectory(fs, PathJoin(dir, "participants.json")) || UndecodableText(fs, PathJoin(dir, "participants.json"))
            || OpensDirectory(fs, PathJoin(dir, "theory.md")))
  {
    var dir := ContestDir(root, contestId);
    if IsDir(fs, dir) {
      var m := ContentWithPath(fs, PathJoin(dir, "meta.json"), true);
      var c := ContentWithPath(fs, PathJoin(dir, "contest.md"), false);
      var l := ContentWithPath(fs, PathJoin(dir, "leaderboard.json"), true);
      var p := ContentWithPath(fs, PathJoin(dir, "participants.json"), true);
      var t := ContentWithPath(fs, PathJoin(dir, "theory.md"), false);
      if m.Value? && c.Value? && l.Value? && p.Value? && t.Value? {
        ContestFieldsShape(m.v, c.v, l.v, p.v, t.v, dir);
      }
    }
  }
}
