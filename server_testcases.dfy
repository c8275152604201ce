/** `get_testcases`: the sample and normal cases of one problem, read from
    either one folder per case or flat `<stem>.in` / `<stem>.out` file
    pairs, and what the test-case view then does with them. */
module ServerTestcases {
  import opened Common
  import opened Json
  import opened FileSystem
  import Lex
  import Sorting
  import JsParseInt
  import TestCasesViewer

  predicate EndsWith(s: string, suffix: string) {
    |s| >= |suffix| && s[|s| - |suffix|..] == suffix
  }

  predicate AllDots(s: string) {
    forall i :: 0 <= i < |s| ==> s[i] == '.'
  }

  /** `os.path.splitext(name)[0]` for a listing entry that ends in ".in":
      the extension is dropped unless nothing but dots precedes it, as
      Python treats leading dots as part of the name. */
  function Stem(name: string): (stem: string)
    requires EndsWith(name, ".in")
    ensures !AllDots(name[..|name| - 3]) ==> stem + ".in" == name
    ensures AllDots(name[..|name| - 3]) ==> stem == name
  {
    if AllDots(name[..|name| - 3]) then name else name[..|name| - 3]
  }

  lemma StemExamples()
    ensures Stem("1.in") == "1" && Stem("a.b.in") == "a.b"
    ensures Stem(".in") == ".in" && Stem("..in") == "..in"
  {
    assert !AllDots("1.in"[..1]) by { assert "1.in"[..1][0] == '1'; }
    assert !AllDots("a.b.in"[..3]) by { assert "a.b.in"[..3][0] == 'a'; }
    assert AllDots("..in"[..1]);
  }

  function CaseName(dirType: string, name: string): string {
    dirType + "/" + name
  }

  /** The case the folder `folder` of `dir` yields. */
  ghost predicate FromFolder(fs: Fs, dir: string, dirType: string, folder: string, tc: TestCase) {
    var casePath := PathJoin(dir, folder);
    && tc.name == CaseName(dirType, folder)
    && tc.absolutePath == casePath
    && tc.inputFile == "input.md" && tc.outputFile == "output.md"
    && Value(tc.input) == ReadFileContent(fs, PathJoin(casePath, "input.md"))
    && Value(tc.output) == ReadFileContent(fs, PathJoin(casePath, "output.md"))
  }

  /** The case the folder `folder` of `dir` yields: its input.md and
      output.md read in turn. */
  function FolderCase(fs: Fs, dir: string, dirType: string, folder: string): (r: Py<TestCase>)
    ensures r.Value? ==> FromFolder(fs, dir, dirType, folder, r.v)
  {
    var casePath := PathJoin(dir, folder);
    match (ReadFileContent(fs, PathJoin(casePath, "input.md")), ReadFileContent(fs, PathJoin(casePath, "output.md")))
    case (Value(i), Value(o)) => Value(TestCase(CaseName(dirType, folder), i, o, "input.md", "output.md", casePath))
    case _ => Raised
  }

  function FolderAt(fs: Fs, dir: string, dirType: string): string -> Py<TestCase> {
    folder => FolderCase(fs, dir, dirType, folder)
  }

  /** The cases of the one-folder-per-case layout, from the folders among
      `names` in the order of `names`. */
  function FolderCases(fs: Fs, dir: string, dirType: string, names: seq<string>): Py<seq<TestCase>> {
    ReadEach(names, InDir(fs, dir), FolderAt(fs, dir, dirType))
  }

  predicate IsInFile(f: string) {
    EndsWith(f, ".in")
  }

  function OutFile(inFile: string): string
    requires IsInFile(inFile)
  {
    Stem(inFile) + ".out"
  }

  /** The case the file pair `inFile`, `OutFile(inFile)` of `dir` yields. */
  ghost predicate FromPair(fs: Fs, dir: string, dirType: string, inFile: string, tc: TestCase) {
    && IsInFile(inFile)
    && tc.name == CaseName(dirType, Stem(inFile))
    && tc.inputFile == inFile && tc.outputFile == OutFile(inFile)
    && tc.absolutePath == dir
    && Value(tc.input) == ReadFileContent(fs, PathJoin(dir, inFile))
    && Value(tc.output) == ReadFileContent(fs, PathJoin(dir, OutFile(inFile)))
  }

  /** The case the pair `inFile`, `OutFile(inFile)` of `dir` yields. */
  function PairCase(fs: Fs, dir: string, dirType: string, inFile: string): (r: Py<TestCase>)
    requires IsInFile(inFile)
    ensures r.Value? ==> FromPair(fs, dir, dirType, inFile, r.v)
  {
    var outFile := OutFile(inFile);
    match (ReadFileContent(fs, PathJoin(dir, inFile)), ReadFileContent(fs, PathJoin(dir, outFile)))
    case (Value(i), Value(o)) => Value(TestCase(CaseName(dirType, Stem(inFile)), i, o, inFile, outFile, dir))
    case _ => Raised
  }

  /** The test `os.path.exists(os.path.join(directory, out_file))` on an
      ".in" name. */
  function HasPartner(fs: Fs, dir: string): string -> bool {
    n => IsInFile(n) && Exists(fs, PathJoin(dir, OutFile(n)))
  }

  function PairAt(fs: Fs, dir: string, dirType: string): string -> Py<TestCase> {
    inFile => if IsInFile(inFile) then PairCase(fs, dir, dirType, inFile) else Raised
  }

  /** The cases of the flat layout, from the ".in" files among `inFiles`
      whose ".out" partner exists, in the order of `inFiles`. */
  function FlatCases(fs: Fs, dir: string, dirType: string, inFiles: seq<string>): Py<seq<TestCase>> {
    ReadEach(inFiles, HasPartner(fs, dir), PairAt(fs, dir, dirType))
  }

  predicate HasSubdirs(fs: Fs, dir: string, items: seq<string>) {
    SubdirNames(fs, dir, items) != []
  }

  /** `sorted([f for f in dir_items if f.endswith('.in')])`. */
  function SortedInFiles(items: seq<string>): (r: seq<string>)
    ensures forall i :: 0 <= i < |r| ==> IsInFile(r[i])
    ensures forall n :: n in r <==> n in items && IsInFile(n)
  {
    var r := Lex.SortStrings(Lex.Filter(items, IsInFile));
    Lex.SortStringsPermutes(Lex.Filter(items, IsInFile));
    assert forall n :: n in r <==> n in multiset(Lex.Filter(items, IsInFile));
    assert forall i :: 0 <= i < |r| ==> r[i] in r;
    r
  }

  /** `_read_cases_from_dir(directory, dir_type)`. */
  function CasesOf(fs: Fs, dir: string, dirType: string): Py<seq<TestCase>> {
    if !IsDir(fs, dir) then Value([])
    else
      var items := fs.dirs[dir];
      if HasSubdirs(fs, dir, items) then FolderCases(fs, dir, dirType, Lex.SortStrings(items))
      else FlatCases(fs, dir, dirType, SortedInFiles(items))
  }

  /** The loop over the sorted listing, for the folder layout. */
  method ReadFolderCases(fs: Fs, dir: string, dirType: string, folders: seq<string>) returns (r: Py<seq<TestCase>>)
    ensures r == FolderCases(fs, dir, dirType, folders)
  {
    var cases: seq<TestCase> := [];
    var i := 0;
    while i < |folders|
      invariant 0 <= i <= |folders|
      invariant FolderCases(fs, dir, dirType, folders[..i]) == Value(cases)
    {
      assert folders[..i + 1][..i] == folders[..i];
      var casePath := PathJoin(dir, folders[i]);
      if IsDir(fs, casePath) {
        var inputContent := ReadFileContent(fs, PathJoin(casePath, "input.md"));
        var outputContent := ReadFileContent(fs, PathJoin(casePath, "output.md"));
        if inputContent.Raised? || outputContent.Raised? {
          ReadEachRaiseStays(folders, InDir(fs, dir), FolderAt(fs, dir, dirType), i + 1);
          return Raised;
        }
        cases := cases + [TestCase(CaseName(dirType, folders[i]), inputContent.v, outputContent.v,
                                   "input.md", "output.md", casePath)];
      }
      i := i + 1;
    }
    assert folders[..i] == folders;
    return Value(cases);
  }

  /** The loop over the sorted ".in" files, for the flat layout. */
  method ReadFlatCases(fs: Fs, dir: string, dirType: string, inFiles: seq<string>) returns (r: Py<seq<TestCase>>)
    requires forall i :: 0 <= i < |inFiles| ==> IsInFile(inFiles[i])
    ensures r == FlatCases(fs, dir, dirType, inFiles)
  {
    var cases: seq<TestCase> := [];
    var i := 0;
    while i < |inFiles|
      invariant 0 <= i <= |inFiles|
      invariant FlatCases(fs, dir, dirType, inFiles[..i]) == Value(cases)
    {
      assert inFiles[..i + 1][..i] == inFiles[..i];
      var inFile := inFiles[i];
      var name := Stem(inFile);
      var outFile := name + ".out";
      var outPath := PathJoin(dir, outFile);
      if Exists(fs, outPath) {
        var inputContent := ReadFileContent(fs, PathJoin(dir, inFile));
        var outputContent := ReadFileContent(fs, outPath);
        if inputContent.Raised? || outputContent.Raised? {
          ReadEachRaiseStays(inFiles, HasPartner(fs, dir), PairAt(fs, dir, dirType), i + 1);
          return Raised;
        }
        cases := cases + [TestCase(CaseName(dirType, name), inputContent.v, outputContent.v, inFile, outFile, dir)];
      }
      i := i + 1;
    }
    assert inFiles[..i] == inFiles;
    return Value(cases);
  }

  /** `_read_cases_from_dir(directory, dir_type)`. */
  method ReadCasesFromDir(fs: Fs, dir: string, dirType: string) returns (r: Py<seq<TestCase>>)
    ensures r == CasesOf(fs, dir, dirType)
  {
    if !IsDir(fs, dir) {
      return Value([]);
    }
    var dirItems := fs.dirs[dir];
    if HasSubdirs(fs, dir, dirItems) {
      r := ReadFolderCases(fs, dir, dirType, Lex.SortStrings(dirItems));
    } else {
      r := ReadFlatCases(fs, dir, dirType, SortedInFiles(dirItems));
    }
  }

  /** Case i of the folder layout comes from the i-th folder among `names`. */
  lemma FolderCasesShape(fs: Fs, dir: string, dirType: string, names: seq<string>)
    requires FolderCases(fs, dir, dirType, names).Value?
    ensures var cases := FolderCases(fs, dir, dirType, names).v;
      var folders := SubdirNames(fs, dir, names);
      && |cases| == |folders|
      && forall i :: 0 <= i < |cases| ==> FromFolder(fs, dir, dirType, folders[i], cases[i])
  {
    ReadEachShape(names, InDir(fs, dir), FolderAt(fs, dir, dirType));
    var cases, folders := FolderCases(fs, dir, dirType, names).v, SubdirNames(fs, dir, names);
    forall i | 0 <= i < |cases| ensures FromFolder(fs, dir, dirType, folders[i], cases[i]) {
      assert Value(cases[i]) == FolderCase(fs, dir, dirType, folders[i]);
    }
  }

  /** The ".in" files of `inFiles` whose ".out" partner exists. */
  function Paired(fs: Fs, dir: string, inFiles: seq<string>): (r: seq<string>)
    ensures forall n :: n in r <==> n in inFiles && IsInFile(n) && Exists(fs, PathJoin(dir, OutFile(n)))
  {
    Lex.Filter(inFiles, HasPartner(fs, dir))
  }

  /** Case i of the flat layout comes from the i-th paired ".in" file. */
  lemma FlatCasesShape(fs: Fs, dir: string, dirType: string, inFiles: seq<string>)
    requires FlatCases(fs, dir, dirType, inFiles).Value?
    ensures var cases := FlatCases(fs, dir, dirType, inFiles).v;
      var pairs := Paired(fs, dir, inFiles);
      && |cases| == |pairs|
      && forall i :: 0 <= i < |cases| ==> FromPair(fs, dir, dirType, pairs[i], cases[i])
  {
    ReadEachShape(inFiles, HasPartner(fs, dir), PairAt(fs, dir, dirType));
    var cases, pairs := FlatCases(fs, dir, dirType, inFiles).v, Paired(fs, dir, inFiles);
    forall i | 0 <= i < |cases| ensures FromPair(fs, dir, dirType, pairs[i], cases[i]) {
      assert pairs[i] in pairs;
      assert Value(cases[i]) == PairCase(fs, dir, dirType, pairs[i]);
    }
  }

  /** Which cases the directory yields and in what order: with any
      sub-folder, one case per sub-folder and loose files ignored; without,
      one case per ".in" file that has its ".out" partner; in both layouts
      ascending by listing name. */
  lemma CasesLayout(fs: Fs, dir: string, dirType: string)
    requires IsDir(fs, dir) && CasesOf(fs, dir, dirType).Value?
    ensures var items := fs.dirs[dir];
      var cases := CasesOf(fs, dir, dirType).v;
      && (HasSubdirs(fs, dir, items) ==>
            var folders := SubdirNames(fs, dir, Lex.SortStrings(items));
            && Lex.SortedLex(folders)
            && (forall n :: n in folders <==> n in items && IsDir(fs, PathJoin(dir, n)))
            && |cases| == |folders|
            && forall i :: 0 <= i < |cases| ==> FromFolder(fs, dir, dirType, folders[i], cases[i]))
      && (!HasSubdirs(fs, dir, items) ==>
            var pairs := Paired(fs, dir, SortedInFiles(items));
            && Lex.SortedLex(pairs)
            && (forall n :: n in pairs <==> n in items && IsInFile(n) && Exists(fs, PathJoin(dir, OutFile(n))))
            && |cases| == |pairs|
            && forall i :: 0 <= i < |cases| ==> FromPair(fs, dir, dirType, pairs[i], cases[i]))
  {
    var items := fs.dirs[dir];
    Lex.SortStringsSorts(items);
    Lex.SortStringsPermutes(items);
    if HasSubdirs(fs, dir, items) {
      var names := Lex.SortStrings(items);
      FolderCasesShape(fs, dir, dirType, names);
      Lex.FilterSorted(names, InDir(fs, dir));
      forall n ensures n in names <==> n in items {
        assert n in names <==> n in multiset(names);
        assert n in items <==> n in multiset(items);
      }
    } else {
      var inFiles := SortedInFiles(items);
      FlatCasesShape(fs, dir, dirType, inFiles);
      Lex.SortStringsSorts(Lex.Filter(items, IsInFile));
      Lex.FilterSorted(inFiles, HasPartner(fs, dir));
    }
  }

  /** One case as the object app.py appends: six members in this order. */
  function CaseJson(tc: TestCase): (j: Json)
    ensures j.JObj? && Keys(j.fields) == ["name", "input", "output", "input_file", "output_file", "absolute_path"]
    ensures j.fields[0].value == JStr(tc.name) && j.fields[5].value == JStr(tc.absolutePath)
    ensures j.fields[1].value == StrOrNull(tc.input) && j.fields[2].value == StrOrNull(tc.output)
  {
    JObj([Field("name", JStr(tc.name)), Field("input", StrOrNull(tc.input)), Field("output", StrOrNull(tc.output)),
          Field("input_file", JStr(tc.inputFile)), Field("output_file", JStr(tc.outputFile)),
          Field("absolute_path", JStr(tc.absolutePath))])
  }

  function CasesJson(cases: seq<TestCase>): (js: seq<Json>)
    ensures |js| == |cases| && forall i :: 0 <= i < |cases| ==> js[i] == CaseJson(cases[i])
  {
    if cases == [] then [] else [CaseJson(cases[0])] + CasesJson(cases[1..])
  }

  function TestcasesDir(problemDir: string): string {
    PathJoin(problemDir, "testcases")
  }

  function SampleCasesDir(problemDir: string): string {
    PathJoin(PathJoin(problemDir, "details"), "samples")
  }

  /** What `get_testcases` answers. */
  function TestcasesReply(fs: Fs, root: string, problemId: string): Response {
    var problemDir := PathJoin(PathJoin(root, "problems"), problemId);
    if !IsDir(fs, problemDir) then NotFound("Problem not found")
    else
      match (CasesOf(fs, SampleCasesDir(problemDir), "samples"), CasesOf(fs, TestcasesDir(problemDir), "testcases"))
      case (Value(sample), Value(normal)) =>
        Success(JObj([Field("sample_cases", JArr(CasesJson(sample))), Field("normal_cases", JArr(CasesJson(normal)))]))
      case _ => ServerError
  }

  /** 404 exactly without the problem folder, 500 exactly when reading
      either collection raises, and otherwise both collections as JSON. */
  lemma TestcasesReplyShape(fs: Fs, root: string, problemId: string)
    ensures var problemDir := PathJoin(PathJoin(root, "problems"), problemId);
      && (TestcasesReply(fs, root, problemId) == NotFound("Problem not found") <==> !IsDir(fs, problemDir))
      && (TestcasesReply(fs, root, problemId) == ServerError <==>
            IsDir(fs, problemDir) &&
            (CasesOf(fs, SampleCasesDir(problemDir), "samples").Raised? ||
             CasesOf(fs, TestcasesDir(problemDir), "testcases").Raised?))
      && (TestcasesReply(fs, root, problemId).Response? && TestcasesReply(fs, root, problemId).status == 200 ==>
            TestcasesReply(fs, root, problemId).body ==
              JObj([Field("sample_cases", JArr(CasesJson(CasesOf(fs, SampleCasesDir(problemDir), "samples").v))),
                    Field("normal_cases", JArr(CasesJson(CasesOf(fs, TestcasesDir(problemDir), "testcases").v)))]))
  {
  }

  method GetTestcases(fs: Fs, root: string, problemId: string) returns (r: Response)
    ensures r == TestcasesReply(fs, root, problemId)
  {
    var problemDir := PathJoin(PathJoin(root, "problems"), problemId);
    if !IsDir(fs, problemDir) {
      return NotFound("Problem not found");
    }
    var sample := ReadCasesFromDir(fs, SampleCasesDir(problemDir), "samples");
    var normal := ReadCasesFromDir(fs, TestcasesDir(problemDir), "testcases");
    if sample.Raised? || normal.Raised? {
      return ServerError;
    }
    return Success(JObj([Field("sample_cases", JArr(CasesJson(sample.v))), Field("normal_cases", JArr(CasesJson(normal.v)))]));
  }

  /** Every case the server names starts with "<dirType>/". */
  lemma CaseNamesPrefixed(fs: Fs, dir: string, dirType: string)
    requires CasesOf(fs, dir, dirType).Value?
    ensures var cases := CasesOf(fs, dir, dirType).v;
      forall i :: 0 <= i < |cases| ==>
        |cases[i].name| > |dirType| && cases[i].name == CaseName(dirType, cases[i].name[|dirType| + 1..])
  {
    if IsDir(fs, dir) {
      var items := fs.dirs[dir];
      var cases := CasesOf(fs, dir, dirType).v;
      if HasSubdirs(fs, dir, items) {
        var folders := SubdirNames(fs, dir, Lex.SortStrings(items));
        FolderCasesShape(fs, dir, dirType, Lex.SortStrings(items));
        forall i | 0 <= i < |cases|
          ensures |cases[i].name| > |dirType| && cases[i].name == CaseName(dirType, cases[i].name[|dirType| + 1..])
        {
          assert FromFolder(fs, dir, dirType, folders[i], cases[i]);
          assert cases[i].name[|dirType| + 1..] == folders[i];
        }
      } else {
        var pairs := Paired(fs, dir, SortedInFiles(items));
        FlatCasesShape(fs, dir, dirType, SortedInFiles(items));
        forall i | 0 <= i < |cases|
          ensures |cases[i].name| > |dirType| && cases[i].name == CaseName(dirType, cases[i].name[|dirType| + 1..])
        {
          assert FromPair(fs, dir, dirType, pairs[i], cases[i]);
          assert cases[i].name[|dirType| + 1..] == Stem(pairs[i]);
        }
      }
    }
  }

  /** Across the wire: the names the server gives ("samples/…",
      "testcases/…") never parse as numbers in the viewer, so the viewer's
      numeric sort leaves every collection in the order the server sent. */
  lemma ViewerKeepsServerOrder(fs: Fs, dir: string, dirType: string)
    requires dirType == "samples" || dirType == "testcases"
    requires CasesOf(fs, dir, dirType).Value?
    ensures var cases := CasesOf(fs, dir, dirType).v;
      && TestCasesViewer.KeysUniform(cases)
      && Sorting.SortByKey(cases, TestCasesViewer.NumKey) == cases
  {
    var cases := CasesOf(fs, dir, dirType).v;
    CaseNamesPrefixed(fs, dir, dirType);
    forall i | 0 <= i < |cases| ensures !TestCasesViewer.IsNumeric(cases[i]) && TestCasesViewer.NumKey(cases[i]) == 0 {
      var rest := cases[i].name[|dirType| + 1..];
      JsParseInt.ServerCaseNamesHaveNoKey(dirType, rest);
    }
    Sorting.SortConstantKey(cases, TestCasesViewer.NumKey);
  }
}
