/** The three list endpoints of the content server: problems and contests
    from their index files, solutions from the directory listing. Each list
    is ordered by `int()` of the id after its first character, largest
    first, with equal keys left in index order (Python's `sorted` is stable,
    also with `reverse=True`); a key `int()` rejects makes the handler
    raise, which Flask answers with a 500. */
module ServerLists {
  import opened Common
  import opened Json
  import opened FileSystem
  import opened PythonInt
  import Sorting

  /** `s[1:]` on a string: all but the first character, "" when there is
      at most one. */
  function AfterFirst(s: string): string {
    if s == [] then [] else s[1..]
  }

  /** The sort key `int(id[1:])`; None where `int` raises. */
  function IdKey(id: string): Option<int> {
    PyInt(AfterFirst(id))
  }

  /** The ids the data uses: one character, then decimal digits. */
  predicate NumberedId(id: string) {
    |id| >= 2 && AllDigits(id[1..])
  }

  function IdNumber(id: string): nat
    requires NumberedId(id)
  {
    DigitsValue(id[1..])
  }

  /** Such an id has as key the number after its first character: "P11"
      gives 11. */
  lemma NumberedIdKey(id: string)
    requires NumberedId(id)
    ensures IdKey(id) == Some(IdNumber(id) as int)
  {
    PyIntOfDigits(id[1..]);
  }

  /** An id of at most one character has no key: `int("")` raises. */
  lemma ShortIdHasNoKey(id: string)
    requires |id| <= 1
    ensures IdKey(id) == None
  {
    assert AfterFirst(id) == "";
    PyIntEmpty();
  }

  /** A letter after the first character makes the key raise: "tmp". */
  lemma LetterIdHasNoKey(id: string, i: nat)
    requires 1 <= i < |id| && 'a' <= id[i] <= 'z'
    ensures IdKey(id) == None
  {
    assert AfterFirst(id)[i - 1] == id[i];
    PyIntRejects(AfterFirst(id), i - 1);
  }

  /** The key `x['id'][1:]` gives a list entry: only an object whose "id" is
      a string has one; a missing id, an id of another type and an element
      that is not an object raise. */
  function EntryKey(j: Json): Option<int> {
    match j
    case JObj(fields) =>
      (match Lookup(fields, "id")
       case Some(JStr(s)) => IdKey(s)
       case _ => None)
    case _ => None
  }

  predicate AllKeyed(items: seq<Json>) {
    forall i :: 0 <= i < |items| ==> EntryKey(items[i]).Some?
  }

  /** Sorting by key with `reverse=True` is the stable ascending sort by
      the negated key. */
  function NegEntryKey(j: Json): int {
    match EntryKey(j)
    case Some(k) => -k
    case None => 0
  }

  /** `sorted(items, key=lambda x: int(x['id'][1:]), reverse=True)`: every
      key is computed before any comparison, so one key that raises makes
      the whole call raise. */
  function SortById(items: seq<Json>): (r: Py<seq<Json>>)
    ensures r.Raised? <==> !AllKeyed(items)
  {
    if AllKeyed(items) then Value(Sorting.SortByKey(items, NegEntryKey)) else Raised
  }

  /** A sorted list holds the same entries, keys never increase along it,
      and entries with equal keys keep their order. */
  lemma SortByIdOrders(items: seq<Json>)
    requires AllKeyed(items)
    ensures var out := SortById(items).v;
      && multiset(out) == multiset(items)
      && AllKeyed(out)
      && (forall i, j :: 0 <= i < j < |out| ==> EntryKey(out[i]).value >= EntryKey(out[j]).value)
      && Sorting.SameGroups(out, items, NegEntryKey)
  {
    var out := Sorting.SortByKey(items, NegEntryKey);
    Sorting.SortPermutes(items, NegEntryKey);
    Sorting.SortKeepsMembers(items, NegEntryKey);
    Sorting.SortSorts(items, NegEntryKey);
    Sorting.SortIsStable(items, NegEntryKey);
    forall i | 0 <= i < |out| ensures EntryKey(out[i]).Some? {
      assert out[i] in items;
    }
    forall i, j | 0 <= i < j < |out| ensures EntryKey(out[i]).value >= EntryKey(out[j]).value {
      assert NegEntryKey(out[i]) <= NegEntryKey(out[j]);
    }
  }

  function NegNameKey(name: string): int {
    match IdKey(name)
    case Some(k) => -k
    case None => 0
  }

  function ProblemsIndexPath(root: string): string {
    PathJoin(PathJoin(root, "problems"), "index.json")
  }

  function ContestsIndexPath(root: string): string {
    PathJoin(PathJoin(root, "contests"), "index.json")
  }

  function SolutionsDir(root: string): string {
    PathJoin(root, "solutions")
  }

  // ---- get_problems ----

  /** The list the `for problem_id, details in data.items()` loop builds:
      each details object with its key assigned to "id"; None when some
      details value is not an object, where the assignment raises. */
  function ProblemEntries(fields: seq<Field>): Option<seq<Json>> {
    if fields == [] then Some([])
    else
      var last := fields[|fields| - 1];
      match ProblemEntries(fields[..|fields| - 1])
      case None => None
      case Some(es) =>
        if last.value.JObj? then Some(es + [EntryFor(last)]) else None
  }

  /** `details["id"] = problem_id` on one index member. */
  function EntryFor(f: Field): Json
    requires f.value.JObj?
  {
    JObj(Assign(f.value.fields, "id", JStr(f.key)))
  }

  /** The entry has "id" set to the member's key, and every other key reads
      as in the member. */
  lemma EntryForLookup(f: Field, k: string)
    requires f.value.JObj?
    ensures Lookup(EntryFor(f).fields, k) == (if k == "id" then Some(JStr(f.key)) else Lookup(f.value.fields, k))
  {
    AssignLookup(f.value.fields, "id", JStr(f.key), k);
  }

  /** The loop itself. */
  method CollectProblems(fields: seq<Field>) returns (r: Option<seq<Json>>)
    ensures r == ProblemEntries(fields)
  {
    var problemList: seq<Json> := [];
    var i := 0;
    while i < |fields|
      invariant 0 <= i <= |fields|
      invariant ProblemEntries(fields[..i]) == Some(problemList)
    {
      assert fields[..i + 1][..i] == fields[..i];
      var details := fields[i].value;
      if !details.JObj? {
        assert ProblemEntries(fields[..i + 1]) == None;
        NoEntriesAfterFailure(fields, i + 1);
        return None;
      }
      details := JObj(Assign(details.fields, "id", JStr(fields[i].key)));
      assert details == EntryFor(fields[i]);
      problemList := problemList + [details];
      i := i + 1;
    }
    assert fields[..i] == fields;
    return Some(problemList);
  }

  lemma {:induction false} NoEntriesAfterFailure(fields: seq<Field>, n: nat)
    requires n <= |fields| && ProblemEntries(fields[..n]) == None
    ensures ProblemEntries(fields) == None
    decreases |fields| - n
  {
    if n < |fields| {
      assert fields[..n + 1][..n] == fields[..n];
      NoEntriesAfterFailure(fields, n + 1);
    } else {
      assert fields[..n] == fields;
    }
  }

  /** The list fails only when some index member is not an object. */
  lemma {:induction false} ProblemEntriesFail(fields: seq<Field>)
    ensures ProblemEntries(fields).None? <==> exists i :: 0 <= i < |fields| && !fields[i].value.JObj?
    decreases |fields|
  {
    if fields != [] {
      var init, last := fields[..|fields| - 1], fields[|fields| - 1];
      ProblemEntriesFail(init);
      if ProblemEntries(init).None? {
        var i :| 0 <= i < |init| && !init[i].value.JObj?;
        assert fields[i] == init[i];
      } else if !last.value.JObj? {
        assert !fields[|fields| - 1].value.JObj?;
      } else {
        forall i | 0 <= i < |fields| ensures fields[i].value.JObj? {
          if i < |init| {
            assert fields[i] == init[i];
          }
        }
      }
    }
  }

  /** Entry i of the list is built from index member i. */
  lemma ProblemEntriesShape(fields: seq<Field>, es: seq<Json>)
    requires ProblemEntries(fields) == Some(es)
    ensures |es| == |fields|
    ensures forall i :: 0 <= i < |es| ==> EntryOf(fields[i], es[i])
  {
    ProblemEntriesLength(fields, es);
    forall i | 0 <= i < |es| ensures EntryOf(fields[i], es[i]) {
      ProblemEntryAt(fields, es, i);
      EntryOfAssign(fields[i]);
    }
  }

  lemma {:induction false} ProblemEntriesLength(fields: seq<Field>, es: seq<Json>)
    requires ProblemEntries(fields) == Some(es)
    ensures |es| == |fields|
    decreases |fields|
  {
    if fields != [] {
      ProblemEntriesLength(fields[..|fields| - 1], ProblemEntries(fields[..|fields| - 1]).value);
    }
  }

  lemma {:induction false} ProblemEntryAt(fields: seq<Field>, es: seq<Json>, i: nat)
    requires ProblemEntries(fields) == Some(es) && i < |fields| && |es| == |fields|
    ensures fields[i].value.JObj? && es[i] == EntryFor(fields[i])
    decreases |fields|
  {
    var init, last := fields[..|fields| - 1], fields[|fields| - 1];
    var es' := ProblemEntries(init).value;
    ProblemEntriesLength(init, es');
    assert es == es' + [EntryFor(last)];
    if i < |init| {
      ProblemEntryAt(init, es', i);
      assert fields[i] == init[i] && es[i] == es'[i];
    }
  }

  lemma EntryOfAssign(f: Field)
    requires f.value.JObj?
    ensures EntryOf(f, EntryFor(f))
  {
    var fields := f.value.fields;
    AssignLookup(fields, "id", JStr(f.key), "id");
    forall k | k != "id" ensures Lookup(EntryFor(f).fields, k) == Lookup(fields, k) {
      AssignLookup(fields, "id", JStr(f.key), k);
    }
  }

  /** `entry` is the index member `f`'s object with "id" set to its key and
      every other member as it was. */
  ghost predicate EntryOf(f: Field, entry: Json) {
    && f.value.JObj? && entry.JObj?
    && Lookup(entry.fields, "id") == Some(JStr(f.key))
    && forall k :: k != "id" ==> Lookup(entry.fields, k) == Lookup(f.value.fields, k)
  }

  /** What `get_problems` answers. */
  function ProblemsReply(fs: Fs, root: string): Response {
    var path := ProblemsIndexPath(root);
    match ReadFileContent(fs, path)
    case Raised => ServerError
    case Value(None) => NotFound("problems/index.json not found")
    case Value(Some(_)) =>
      match LoadJson(fs, path)
      case Raised => ServerError
      case Value(data) =>
        if !data.JObj? then ServerError
        else match ProblemEntries(data.fields)
          case None => ServerError
          case Some(es) =>
            match SortById(es)
            case Raised => ServerError
            case Value(sortedList) => Success(JArr(sortedList))
  }

  /** `get_problems`. */
  method GetProblems(fs: Fs, root: string) returns (r: Response)
    ensures r == ProblemsReply(fs, root)
  {
    var path := ProblemsIndexPath(root);
    var content := ReadFileContent(fs, path);
    if content.Raised? {
      return ServerError;
    }
    if content.v.None? {
      return NotFound("problems/index.json not found");
    }
    var data := LoadJson(fs, path);
    if data.Raised? || !data.v.JObj? {
      return ServerError;
    }
    var problemList := CollectProblems(data.v.fields);
    if problemList.None? {
      return ServerError;
    }
    var sortedList := SortById(problemList.value);
    if sortedList.Raised? {
      return ServerError;
    }
    return Success(JArr(sortedList.v));
  }

  /** A missing index, and only that, gives the 404. */
  lemma ProblemsNotFound(fs: Fs, root: string)
    ensures ProblemsReply(fs, root) == NotFound("problems/index.json not found") <==> !Exists(fs, ProblemsIndexPath(root))
  {
  }

  /** Entry i of the list carries the key of index member i. */
  lemma {:induction false} ProblemEntryKeys(fields: seq<Field>, es: seq<Json>)
    requires ProblemEntries(fields) == Some(es)
    ensures |es| == |fields|
    ensures forall i :: 0 <= i < |es| ==> EntryKey(es[i]) == IdKey(fields[i].key)
  {
    ProblemEntriesShape(fields, es);
    forall i | 0 <= i < |es| ensures EntryKey(es[i]) == IdKey(fields[i].key) {
      assert EntryOf(fields[i], es[i]);
    }
  }

  /** For a readable index object whose entries all build, the reply is
      what sorting the entries gives. */
  lemma ProblemsReplyOfEntries(fs: Fs, root: string, fields: seq<Field>, es: seq<Json>)
    requires ProblemsIndexPath(root) in fs.files
    requires fs.files[ProblemsIndexPath(root)].parsed == Some(JObj(fields))
    requires ProblemEntries(fields) == Some(es)
    ensures ProblemsReply(fs, root) == ServerError <==> !AllKeyed(es)
    ensures AllKeyed(es) ==> ProblemsReply(fs, root) == Success(JArr(Sorting.SortByKey(es, NegEntryKey)))
  {
    var path := ProblemsIndexPath(root);
    assert ReadFileContent(fs, path) == Value(Some(fs.files[path].text));
    assert LoadJson(fs, path) == Value(JObj(fields));
  }

  lemma EntriesKeyedIff(fields: seq<Field>, es: seq<Json>)
    requires |es| == |fields|
    requires forall i :: 0 <= i < |es| ==> EntryKey(es[i]) == IdKey(fields[i].key)
    ensures !AllKeyed(es) <==> exists i :: 0 <= i < |fields| && IdKey(fields[i].key).None?
  {
    if !AllKeyed(es) {
      var i :| 0 <= i < |es| && EntryKey(es[i]).None?;
      assert IdKey(fields[i].key).None?;
    }
  }

  /** For an index object of objects, the reply is a 500 exactly when some
      problem id has no key. */
  lemma ProblemsRaiseOnBadId(fs: Fs, root: string, fields: seq<Field>)
    requires ProblemsIndexPath(root) in fs.files
    requires fs.files[ProblemsIndexPath(root)].parsed == Some(JObj(fields))
    requires forall i :: 0 <= i < |fields| ==> fields[i].value.JObj?
    ensures ProblemsReply(fs, root) == ServerError <==> exists i :: 0 <= i < |fields| && IdKey(fields[i].key).None?
  {
    ProblemEntriesFail(fields);
    var es := ProblemEntries(fields).value;
    ProblemEntryKeys(fields, es);
    ProblemsReplyOfEntries(fs, root, fields, es);
    EntriesKeyedIff(fields, es);
  }

  /** When every id has a key, the reply lists every entry once, the keys
      never increase along the list, and entries with equal keys stay in
      index order. */
  lemma ProblemsOrdered(fs: Fs, root: string, fields: seq<Field>)
    requires ProblemsIndexPath(root) in fs.files
    requires fs.files[ProblemsIndexPath(root)].parsed == Some(JObj(fields))
    requires forall i :: 0 <= i < |fields| ==> fields[i].value.JObj? && IdKey(fields[i].key).Some?
    ensures ProblemsReply(fs, root).Response? && ProblemsReply(fs, root).status == 200
    ensures var out := ProblemsReply(fs, root).body.items;
      var es := ProblemEntries(fields).value;
      && multiset(out) == multiset(es)
      && AllKeyed(out)
      && (forall i, j :: 0 <= i < j < |out| ==> EntryKey(out[i]).value >= EntryKey(out[j]).value)
      && Sorting.SameGroups(out, es, NegEntryKey)
      && |es| == |fields|
      && (forall i :: 0 <= i < |es| ==> EntryKey(es[i]) == IdKey(fields[i].key))
  {
    ProblemEntriesFail(fields);
    var es := ProblemEntries(fields).value;
    ProblemEntryKeys(fields, es);
    assert AllKeyed(es);
    ProblemsReplyOfEntries(fs, root, fields, es);
    SortByIdOrders(es);
  }

  // ---- get_solutions ----

  function Strs(names: seq<string>): (r: seq<Json>)
    ensures |r| == |names| && forall i :: 0 <= i < |names| ==> r[i] == JStr(names[i])
  {
    seq(|names|, i requires 0 <= i < |names| => JStr(names[i]))
  }

  predicate AllNamesKeyed(names: seq<string>) {
    forall i :: 0 <= i < |names| ==> IdKey(names[i]).Some?
  }

  /** `sorted(names, key=lambda x: int(x[1:]), reverse=True)`. */
  function SortNames(names: seq<string>): (r: Py<seq<string>>)
    ensures r.Raised? <==> !AllNamesKeyed(names)
  {
    if AllNamesKeyed(names) then Value(Sorting.SortByKey(names, NegNameKey))
    else Raised
  }

  /** `get_solutions`: the 404 when the solutions directory is missing, a
      500 when some subdirectory name has no key, otherwise the names of
      the subdirectories ordered by key, largest first. */
  function GetSolutions(fs: Fs, root: string): (r: Response)
    ensures !IsDir(fs, SolutionsDir(root)) <==> r == NotFound("solutions directory not found")
    ensures IsDir(fs, SolutionsDir(root)) ==>
      var subs := SubdirNames(fs, SolutionsDir(root), fs.dirs[SolutionsDir(root)]);
      && (r == ServerError <==> !AllNamesKeyed(subs))
      && (r != ServerError ==> r == Success(JArr(Strs(Sorting.SortByKey(subs, NegNameKey)))))
  {
    var dir := SolutionsDir(root);
    if !IsDir(fs, dir) then NotFound("solutions directory not found")
    else
      match SortNames(SubdirNames(fs, dir, fs.dirs[dir]))
      case Raised => ServerError
      case Value(sortedSolutions) => Success(JArr(Strs(sortedSolutions)))
  }

  /** The sorted names are the given ones, each as often, with keys
      non-increasing. */
  lemma SortNamesOrders(names: seq<string>)
    requires AllNamesKeyed(names)
    ensures var out := SortNames(names).v;
      && multiset(out) == multiset(names)
      && (forall n :: n in out <==> n in names)
      && AllNamesKeyed(out)
      && (forall i, j :: 0 <= i < j < |out| ==> IdKey(out[i]).value >= IdKey(out[j]).value)
  {
    var out := Sorting.SortByKey(names, NegNameKey);
    Sorting.SortPermutes(names, NegNameKey);
    Sorting.SortKeepsMembers(names, NegNameKey);
    Sorting.SortSorts(names, NegNameKey);
    forall i | 0 <= i < |out| ensures IdKey(out[i]).Some? {
      assert out[i] in names;
    }
    forall i, j | 0 <= i < j < |out| ensures IdKey(out[i]).value >= IdKey(out[j]).value {
      assert NegNameKey(out[i]) <= NegNameKey(out[j]);
    }
  }

  /** When every subdirectory name has a key, the listed ids are exactly
      the subdirectories, each once, in order of non-increasing key. */
  lemma SolutionsOrdered(fs: Fs, root: string)
    requires IsDir(fs, SolutionsDir(root))
    requires var dir := SolutionsDir(root);
      AllNamesKeyed(SubdirNames(fs, dir, fs.dirs[dir]))
    ensures var dir := SolutionsDir(root);
      var subs := SubdirNames(fs, dir, fs.dirs[dir]);
      var out := Sorting.SortByKey(subs, NegNameKey);
      && GetSolutions(fs, root) == Success(JArr(Strs(out)))
      && multiset(out) == multiset(subs)
      && (forall n :: n in out <==> n in fs.dirs[dir] && IsDir(fs, PathJoin(dir, n)))
      && AllNamesKeyed(out)
      && (forall i, j :: 0 <= i < j < |out| ==> IdKey(out[i]).value >= IdKey(out[j]).value)
  {
    var dir := SolutionsDir(root);
    SortNamesOrders(SubdirNames(fs, dir, fs.dirs[dir]));
  }

  /** A solutions subdirectory named like "tmp" makes the handler answer
      500: `int("mp")` raises. */
  lemma SolutionsLetterFolder(fs: Fs, root: string, k: nat)
    requires IsDir(fs, SolutionsDir(root))
    requires var subs := SubdirNames(fs, SolutionsDir(root), fs.dirs[SolutionsDir(root)]);
      k < |subs| && |subs[k]| >= 2 && 'a' <= subs[k][1] <= 'z'
    ensures GetSolutions(fs, root) == ServerError
  {
    var subs := SubdirNames(fs, SolutionsDir(root), fs.dirs[SolutionsDir(root)]);
    LetterIdHasNoKey(subs[k], 1);
  }

  // ---- get_contests ----

  /** `sorted(data, key=...)` of whatever the index holds: a list is sorted
      by id key; iterating an empty dict or an empty string gives []; the
      keys of a non-empty dict and the characters of a non-empty string
      are strings, on which `x['id']` raises; any other value is not
      iterable. */
  function SortContests(data: Json): (r: Py<seq<Json>>)
    ensures data.JArr? ==> r == SortById(data.items)
    ensures data == JObj([]) || data == JStr("") ==> r == Value([])
    ensures r.Value? <==> (data.JArr? && AllKeyed(data.items)) || data == JObj([]) || data == JStr("")
  {
    match data
    case JArr(items) => SortById(items)
    case JObj(fields) => if fields == [] then Value([]) else Raised
    case JStr(s) => if s == "" then Value([]) else Raised
    case _ => Raised
  }

  /** What `get_contests` answers. */
  function GetContests(fs: Fs, root: string): (r: Response)
    ensures r == NotFound("contests/index.json not found") <==> !Exists(fs, ContestsIndexPath(root))
    ensures r.Response? && r.status == 200 ==>
      var path := ContestsIndexPath(root);
      path in fs.files && fs.files[path].parsed.Some? && r.body.JArr? &&
      Value(r.body.items) == SortContests(fs.files[path].parsed.value)
    ensures var path := ContestsIndexPath(root);
      path in fs.files && fs.files[path].parsed.Some? ==>
      (r == ServerError <==> SortContests(fs.files[path].parsed.value).Raised?)
  {
    var path := ContestsIndexPath(root);
    match ReadFileContent(fs, path)
    case Raised => ServerError
    case Value(None) => NotFound("contests/index.json not found")
    case Value(Some(_)) =>
      match LoadJson(fs, path)
      case Raised => ServerError
      case Value(data) =>
        match SortContests(data)
        case Raised => ServerError
        case Value(sortedData) => Success(JArr(sortedData))
  }

  /** A contest index list whose ids all have keys comes back in full, keys
      non-increasing, ties in index order. */
  lemma ContestsOrdered(items: seq<Json>)
    requires AllKeyed(items)
    ensures SortContests(JArr(items)).Value?
    ensures var out := SortContests(JArr(items)).v;
      && multiset(out) == multiset(items)
      && AllKeyed(out)
      && (forall i, j :: 0 <= i < j < |out| ==> EntryKey(out[i]).value >= EntryKey(out[j]).value)
      && Sorting.SameGroups(out, items, NegEntryKey)
  {
    SortByIdOrders(items);
  }

  /** A contest whose id has at most one character, such as "C", makes the
      sort raise: `int("")`. */
  lemma ContestShortIdRaises(items: seq<Json>, k: nat, id: string)
    requires k < |items| && items[k].JObj? && Lookup(items[k].fields, "id") == Some(JStr(id)) && |id| <= 1
    ensures SortContests(JArr(items)) == Raised
  {
    ShortIdHasNoKey(id);
    assert EntryKey(items[k]).None?;
  }
}
