/** `get_problem_contests`: the contest summaries of the contest index whose
    meta data lists a given problem. */
module ServerContests {
  import opened Common
  import opened Json
  import opened FileSystem
  import ServerLists

  /** What `for contest_summary in all_contests` visits before the first
      `contest_summary.get` can raise: the items of a list; nothing for an
      empty dict or string; the keys or characters of any other dict or
      string, which are strings and have no `get`, so raising is all they
      can lead to; other values cannot be iterated. */
  function Elements(data: Json): (r: Py<seq<Json>>)
    ensures data.JArr? ==> r == Value(data.items)
    ensures data == JObj([]) || data == JStr("") ==> r == Value([])
    ensures r.Value? ==> data.JArr? || data == JObj([]) || data == JStr("")
  {
    match data
    case JArr(items) => Value(items)
    case JObj(fields) => if fields == [] then Value([]) else Raised
    case JStr(s) => if s == "" then Value([]) else Raised
    case _ => Raised
  }

  function ContestMetaPath(root: string, contestId: string): string {
    PathJoin(PathJoin(PathJoin(root, "contests"), contestId), "meta.json")
  }

  /** The contest's meta.json exists, is not empty, decodes to an object,
      and its "problems" (default []) contains the problem. */
  predicate MetaListsProblem(fs: Fs, metaPath: string, problemId: string) {
    && metaPath in fs.files && fs.files[metaPath].text != ""
    && fs.files[metaPath].parsed.Some? && fs.files[metaPath].parsed.value.JObj?
    && Contains(GetOr(fs.files[metaPath].parsed.value.fields, "problems", JArr([])), problemId) == Some(true)
  }

  /** Reading and searching the contest's meta.json raises: the path is a
      directory, or the non-empty text does not decode, decodes to
      something other than an object, or has a "problems" `in` cannot
      search. */
  predicate MetaCheckRaises(fs: Fs, metaPath: string, problemId: string) {
    || (metaPath in fs.dirs && metaPath !in fs.files)
    || (&& metaPath in fs.files && fs.files[metaPath].text != ""
        && (|| fs.files[metaPath].parsed.None?
            || !fs.files[metaPath].parsed.value.JObj?
            || Contains(GetOr(fs.files[metaPath].parsed.value.fields, "problems", JArr([])), problemId).None?))
  }

  /** The loop body for one summary: whether it goes into the answer.
      A summary that is not an object has no `get`; a truthy id that is not
      a string cannot be joined into a path; meta data that is not an
      object has no `get`; a "problems" value `in` cannot search raises. */
  function InContest(fs: Fs, root: string, problemId: string, summary: Json): (r: Py<bool>)
    ensures !summary.JObj? ==> r == Raised
    ensures summary.JObj? && !PyTruthy(GetOr(summary.fields, "id", JNull)) ==> r == Value(false)
    ensures r == Value(true) ==>
      && summary.JObj? && GetOr(summary.fields, "id", JNull).JStr?
      && var metaPath := ContestMetaPath(root, GetOr(summary.fields, "id", JNull).s);
         && metaPath in fs.files && fs.files[metaPath].text != ""
         && fs.files[metaPath].parsed.Some? && fs.files[metaPath].parsed.value.JObj?
         && Contains(GetOr(fs.files[metaPath].parsed.value.fields, "problems", JArr([])), problemId) == Some(true)
    ensures summary.JObj? ==>
      var id := GetOr(summary.fields, "id", JNull);
      && (r == Value(true) <==> id.JStr? && id.s != "" && MetaListsProblem(fs, ContestMetaPath(root, id.s), problemId))
      && (r.Raised? <==>
            || (PyTruthy(id) && !id.JStr?)
            || (id.JStr? && id.s != "" && MetaCheckRaises(fs, ContestMetaPath(root, id.s), problemId)))
  {
    match summary
    case JObj(fields) =>
      var contestId := GetOr(fields, "id", JNull);
      if !PyTruthy(contestId) then Value(false)
      else if !contestId.JStr? then Raised
      else
        var metaPath := ContestMetaPath(root, contestId.s);
        (match ReadFileContent(fs, metaPath)
         case Raised => Raised
         case Value(metaContent) =>
           if !Truthy(metaContent) then Value(false)
           else
             match LoadJson(fs, metaPath)
             case Value(JObj(meta)) =>
               (match Contains(GetOr(meta, "problems", JArr([])), problemId)
                case Some(b) => Value(b)
                case None => Raised)
             case _ => Raised)
    case _ => Raised
  }

  /** The elements of `s` that `test` keeps, in order, as a loop that
      appends them one by one; Raised as soon as a test raises. */
  function KeepWhere(s: seq<Json>, test: Json -> Py<bool>): Py<seq<Json>> {
    if s == [] then Value([])
    else
      match (KeepWhere(s[..|s| - 1], test), test(s[|s| - 1]))
      case (Value(kept), Value(keep)) => Value(if keep then kept + [s[|s| - 1]] else kept)
      case _ => Raised
  }

  /** `found_in_contests` after visiting `summaries`. */
  function FoundIn(fs: Fs, root: string, problemId: string, summaries: seq<Json>): Py<seq<Json>> {
    KeepWhere(summaries, ListsProblem(fs, root, problemId))
  }

  /** The per-summary check of the loop, as a value. */
  function ListsProblem(fs: Fs, root: string, problemId: string): Json -> Py<bool> {
    x => InContest(fs, root, problemId, x)
  }

  /** What `get_problem_contests` answers: [] without a contest index. */
  function ProblemContestsReply(fs: Fs, root: string, problemId: string): Response {
    var indexPath := ServerLists.ContestsIndexPath(root);
    match ReadFileContent(fs, indexPath)
    case Raised => ServerError
    case Value(None) => Success(JArr([]))
    case Value(Some(_)) =>
      match LoadJson(fs, indexPath)
      case Raised => ServerError
      case Value(allContests) =>
        match Elements(allContests)
        case Raised => ServerError
        case Value(summaries) =>
          match FoundIn(fs, root, problemId, summaries)
          case Raised => ServerError
          case Value(found) => Success(JArr(found))
  }

  lemma {:induction false} RaiseStays(fs: Fs, root: string, problemId: string, summaries: seq<Json>, n: nat)
    requires n <= |summaries| && FoundIn(fs, root, problemId, summaries[..n]).Raised?
    ensures FoundIn(fs, root, problemId, summaries).Raised?
    decreases |summaries| - n
  {
    if n < |summaries| {
      assert summaries[..n + 1][..n] == summaries[..n];
      RaiseStays(fs, root, problemId, summaries, n + 1);
    } else {
      assert summaries[..n] == summaries;
    }
  }

  /** `get_problem_contests` with its loop over the summaries. */
  method GetProblemContests(fs: Fs, root: string, problemId: string) returns (r: Response)
    ensures r == ProblemContestsReply(fs, root, problemId)
  {
    var indexPath := ServerLists.ContestsIndexPath(root);
    var contestsContent := ReadFileContent(fs, indexPath);
    if contestsContent.Raised? {
      return ServerError;
    }
    if contestsContent.v.None? {
      return Success(JArr([]));
    }
    var allContests := LoadJson(fs, indexPath);
    if allContests.Raised? {
      return ServerError;
    }
    var summaries := Elements(allContests.v);
    if summaries.Raised? {
      return ServerError;
    }
    var foundInContests: seq<Json> := [];
    var i := 0;
    while i < |summaries.v|
      invariant 0 <= i <= |summaries.v|
      invariant FoundIn(fs, root, problemId, summaries.v[..i]) == Value(foundInContests)
    {
      var contestSummary := summaries.v[i];
      assert summaries.v[..i + 1][..i] == summaries.v[..i];
      var keep := InContest(fs, root, problemId, contestSummary);
      if keep.Raised? {
        RaiseStays(fs, root, problemId, summaries.v, i + 1);
        return ServerError;
      }
      if keep.v {
        foundInContests := foundInContests + [contestSummary];
      }
      i := i + 1;
    }
    assert summaries.v[..i] == summaries.v;
    return Success(JArr(foundInContests));
  }

  /** `a` is `b` with some elements left out. */
  ghost predicate Subsequence(a: seq<Json>, b: seq<Json>) {
    a == [] ||
    (b != [] &&
     ((a[|a| - 1] == b[|b| - 1] && Subsequence(a[..|a| - 1], b[..|b| - 1])) || Subsequence(a, b[..|b| - 1])))
  }

  /** The filter raises exactly when some test raises. */
  lemma {:induction false} KeepWhereRaises(s: seq<Json>, test: Json -> Py<bool>)
    ensures KeepWhere(s, test).Raised? <==> exists i :: 0 <= i < |s| && test(s[i]).Raised?
    decreases |s|
  {
    if s != [] {
      var init, last := s[..|s| - 1], s[|s| - 1];
      KeepWhereRaises(init, test);
      if KeepWhere(init, test).Raised? {
        var i :| 0 <= i < |init| && test(init[i]).Raised?;
        assert s[i] == init[i];
      } else if !test(last).Raised? {
        forall i | 0 <= i < |s| ensures !test(s[i]).Raised? {
          if i < |init| {
            assert s[i] == init[i];
          }
        }
      }
    }
  }

  /** One step of the element counts: appending `last` to the input adds it
      to the kept elements exactly when the test keeps it. */
  lemma KeepCountsStep(kept: seq<Json>, init: seq<Json>, last: Json, test: Json -> Py<bool>)
    requires forall x :: multiset(kept)[x] == if test(x) == Value(true) then multiset(init)[x] else 0
    ensures var kept' := if test(last) == Value(true) then kept + [last] else kept;
      forall x :: multiset(kept')[x] == if test(x) == Value(true) then multiset(init + [last])[x] else 0
  {
    assert multiset(init + [last]) == multiset(init) + multiset{last};
    if test(last) == Value(true) {
      assert multiset(kept + [last]) == multiset(kept) + multiset{last};
    }
  }

  /** One step of a successful filter: the prefix succeeded, and the last
      element was appended exactly when the test kept it. */
  lemma KeepWhereStep(s: seq<Json>, test: Json -> Py<bool>)
    requires s != [] && KeepWhere(s, test).Value?
    ensures KeepWhere(s[..|s| - 1], test).Value? && test(s[|s| - 1]).Value?
    ensures KeepWhere(s, test).v ==
      if test(s[|s| - 1]) == Value(true) then KeepWhere(s[..|s| - 1], test).v + [s[|s| - 1]]
      else KeepWhere(s[..|s| - 1], test).v
  {
  }

  /** A successful filter keeps an in-order subsequence of its input. */
  lemma {:induction false} KeepWhereOrdered(s: seq<Json>, test: Json -> Py<bool>)
    requires KeepWhere(s, test).Value?
    ensures Subsequence(KeepWhere(s, test).v, s)
    decreases |s|
  {
    if s != [] {
      var init := s[..|s| - 1];
      KeepWhereStep(s, test);
      KeepWhereOrdered(init, test);
      var kept := KeepWhere(s, test).v;
      var kept' := KeepWhere(init, test).v;
      if kept != kept' {
        assert kept[..|kept| - 1] == kept';
      }
    }
  }

  /** A successful filter keeps every occurrence of an element the test
      keeps and none of the others. */
  lemma {:induction false} KeepWhereCounts(s: seq<Json>, test: Json -> Py<bool>)
    requires KeepWhere(s, test).Value?
    ensures forall x :: multiset(KeepWhere(s, test).v)[x] == if test(x) == Value(true) then multiset(s)[x] else 0
    decreases |s|
  {
    if s != [] {
      var init, last := s[..|s| - 1], s[|s| - 1];
      KeepWhereStep(s, test);
      KeepWhereCounts(init, test);
      assert s == init + [last];
      KeepCountsStep(KeepWhere(init, test).v, init, last, test);
    }
  }

  /** Filtering with a test that may raise: the result fails exactly when
      some test raises, and otherwise is the input in order with every
      occurrence of an element the test keeps and none of the others. */
  lemma KeepWhereFilters(s: seq<Json>, test: Json -> Py<bool>)
    ensures KeepWhere(s, test).Raised? <==> exists i :: 0 <= i < |s| && test(s[i]).Raised?
    ensures KeepWhere(s, test).Value? ==>
      var kept := KeepWhere(s, test).v;
      && Subsequence(kept, s)
      && (forall x :: multiset(kept)[x] == if test(x) == Value(true) then multiset(s)[x] else 0)
  {
    KeepWhereRaises(s, test);
    if KeepWhere(s, test).Value? {
      KeepWhereOrdered(s, test);
      KeepWhereCounts(s, test);
    }
  }

  /** The answer is the index in order with every occurrence of a summary
      whose contest lists the problem and no other summary; any summary
      whose check raises makes the whole request fail. */
  lemma FoundInFilters(fs: Fs, root: string, problemId: string, summaries: seq<Json>)
    ensures FoundIn(fs, root, problemId, summaries).Raised? <==>
      exists i :: 0 <= i < |summaries| && InContest(fs, root, problemId, summaries[i]).Raised?
    ensures FoundIn(fs, root, problemId, summaries).Value? ==>
      var found := FoundIn(fs, root, problemId, summaries).v;
      && Subsequence(found, summaries)
      && (forall x :: multiset(found)[x] == if InContest(fs, root, problemId, x) == Value(true) then multiset(summaries)[x] else 0)
  {
    KeepWhereFilters(summaries, ListsProblem(fs, root, problemId));
  }

  /** A summary whose contest's meta.json lists the problem is in the
      answer, once for every time the index holds it. */
  lemma ListedContestKept(fs: Fs, root: string, problemId: string, summaries: seq<Json>, i: nat)
    requires FoundIn(fs, root, problemId, summaries).Value?
    requires i < |summaries| && summaries[i].JObj?
    requires var id := GetOr(summaries[i].fields, "id", JNull);
      id.JStr? && id.s != "" && MetaListsProblem(fs, ContestMetaPath(root, id.s), problemId)
    ensures var found := FoundIn(fs, root, problemId, summaries).v;
      summaries[i] in found && multiset(found)[summaries[i]] == multiset(summaries)[summaries[i]]
  {
    FoundInFilters(fs, root, problemId, summaries);
    assert summaries[i] in multiset(summaries);
  }

  /** One more element that the test keeps is appended. */
  lemma KeepWhereAppendKept(s: seq<Json>, x: Json, test: Json -> Py<bool>)
    requires KeepWhere(s, test).Value? && test(x) == Value(true)
    ensures KeepWhere(s + [x], test) == Value(KeepWhere(s, test).v + [x])
  {
    assert (s + [x])[..|s|] == s;
  }

  /** A summary listed twice whose contest lists the problem is answered
      twice. */
  lemma RepeatedSummaryKept(fs: Fs, root: string, problemId: string, s: Json)
    requires InContest(fs, root, problemId, s) == Value(true)
    ensures FoundIn(fs, root, problemId, [s, s]) == Value([s, s])
  {
    var test := ListsProblem(fs, root, problemId);
    KeepWhereAppendKept([], s, test);
    assert [] + [s] == [s];
    KeepWhereAppendKept([s], s, test);
    assert [s] + [s] == [s, s];
  }

  /** No contest index means no contests. */
  lemma NoIndexNoContests(fs: Fs, root: string, problemId: string)
    requires !Exists(fs, ServerLists.ContestsIndexPath(root))
    ensures ProblemContestsReply(fs, root, problemId) == Success(JArr([]))
  {
  }

  /** Summaries without an id are skipped without reading anything. */
  lemma {:induction false} IdlessSummariesSkipped(fs: Fs, root: string, problemId: string, summaries: seq<Json>)
    requires forall i :: 0 <= i < |summaries| ==> summaries[i] == JObj([])
    ensures FoundIn(fs, root, problemId, summaries) == Value([])
    decreases |summaries|
  {
    if summaries != [] {
      IdlessSummariesSkipped(fs, root, problemId, summaries[..|summaries| - 1]);
    }
  }
}
