/** The test-case page of one problem: it fetches the problem's sample and
    normal cases, sorts each collection in place by the number in front of the
    case name, collapses every case, and lets the user expand them one by one. */
module TestCasesViewer {
  import opened Common
  import opened JsParseInt
  import opened Collapse
  import Sorting

  datatype CasesPayload = CasesPayload(sampleCases: seq<TestCase>, normalCases: seq<TestCase>)

  predicate IsNumeric(tc: TestCase) {
    CaseKey(tc.name).Some?
  }

  /** The case's key where it has one; 0 for NaN, which is what the
      comparator makes of every comparison involving NaN. */
  function NumKey(tc: TestCase): int {
    match CaseKey(tc.name)
    case Some(k) => k
    case None => 0
  }

  /** The comparator `numA - numB`, with a NaN result read as +0 as
      CompareArrayElements (section 23.1.3.30.2 of ECMA-262) prescribes. */
  function Compare(a: TestCase, b: TestCase): int {
    match (CaseKey(a.name), CaseKey(b.name))
    case (Some(x), Some(y)) => x - y
    case _ => 0
  }

  /** The inputs whose sorted order the language fixes: every key numeric, or
      none. With mixed keys the comparator is not consistent and the order is
      implementation-defined. */
  ghost predicate KeysUniform(cases: seq<TestCase>) {
    (forall i :: 0 <= i < |cases| ==> IsNumeric(cases[i])) ||
    (forall i :: 0 <= i < |cases| ==> !IsNumeric(cases[i]))
  }

  lemma CompareAgreesWithKeys(a: TestCase, b: TestCase)
    requires IsNumeric(a) == IsNumeric(b)
    ensures Compare(a, b) == NumKey(a) - NumKey(b)
  {
  }

  /** What the sort of `cases` promises when the order is determined: a
      permutation; with numeric keys, non-decreasing keys and equal keys in
      input order (that is, the stable sort); with no numeric key, the input
      order unchanged. */
  lemma SortedCasesProperties(cases: seq<TestCase>)
    requires KeysUniform(cases)
    ensures var r := Sorting.SortByKey(cases, NumKey);
      && multiset(r) == multiset(cases)
      && ((forall i :: 0 <= i < |cases| ==> IsNumeric(cases[i])) ==>
            (forall i :: 0 <= i < |r| ==> IsNumeric(r[i]))
            && Sorting.SortedByKey(r, NumKey)
            && Sorting.SameGroups(r, cases, NumKey))
      && ((forall i :: 0 <= i < |cases| ==> !IsNumeric(cases[i])) ==> r == cases)
  {
    var r := Sorting.SortByKey(cases, NumKey);
    Sorting.SortPermutes(cases, NumKey);
    Sorting.SortSorts(cases, NumKey);
    Sorting.SortIsStable(cases, NumKey);
    if forall i :: 0 <= i < |cases| ==> IsNumeric(cases[i]) {
      forall i | 0 <= i < |r| ensures IsNumeric(r[i]) {
        assert r[i] in multiset(cases);
      }
    }
    if forall i :: 0 <= i < |cases| ==> !IsNumeric(cases[i]) {
      Sorting.SortConstantKey(cases, NumKey);
    }
  }

  /** `cases.sort((a, b) => numA - numB)` in place. On a collection whose
      keys are all numeric, or all NaN, the comparator orders by NumKey. */
  method SortCases(a: array<TestCase>)
    requires KeysUniform(a[..])
    modifies a
    ensures a[..] == Sorting.SortByKey(old(a[..]), NumKey)
  {
    ghost var numeric := a.Length > 0 && IsNumeric(a[0]);
    ghost var inClass := (tc: TestCase) => IsNumeric(tc) == numeric;
    assert Sorting.AllIn(a[..], inClass) by {
      if a.Length > 0 { assert a[..][0] == a[0]; }
    }
    forall x, y | inClass(x) && inClass(y) ensures Compare(x, y) == NumKey(x) - NumKey(y) {
      CompareAgreesWithKeys(x, y);
    }
    Sorting.SortInPlace(a, Compare, NumKey, inClass);
  }

  /** `sortCases` applied to a parsed array: the array is sorted where it is
      and the same array is returned. */
  method SortCollection(cases: seq<TestCase>) returns (sorted: seq<TestCase>)
    requires KeysUniform(cases)
    ensures sorted == Sorting.SortByKey(cases, NumKey)
  {
    var a := new TestCase[|cases|](i requires 0 <= i < |cases| => cases[i]);
    assert a[..] == cases;
    SortCases(a);
    sorted := a[..];
  }

  function CaseNames(cases: seq<TestCase>): set<string> {
    set i | 0 <= i < |cases| :: cases[i].name
  }

  /** The two `forEach` loops that collapse every case of both collections. */
  method InitialCollapsedState(sample: seq<TestCase>, normal: seq<TestCase>) returns (state: map<string, bool>)
    ensures state == AllCollapsed(CaseNames(sample) + CaseNames(normal))
  {
    state := map[];
    var i := 0;
    while i < |sample|
      invariant 0 <= i <= |sample|
      invariant state.Keys == CaseNames(sample[..i])
      invariant forall name :: name in state ==> state[name]
    {
      assert CaseNames(sample[..i + 1]) == CaseNames(sample[..i]) + {sample[i].name} by {
        assert forall k :: 0 <= k < i ==> sample[..i + 1][k] == sample[..i][k];
      }
      state := state[sample[i].name := true];
      i := i + 1;
    }
    assert sample[..i] == sample;
    var j := 0;
    while j < |normal|
      invariant 0 <= j <= |normal|
      invariant state.Keys == CaseNames(sample) + CaseNames(normal[..j])
      invariant forall name :: name in state ==> state[name]
    {
      assert CaseNames(normal[..j + 1]) == CaseNames(normal[..j]) + {normal[j].name} by {
        assert forall k :: 0 <= k < j ==> normal[..j + 1][k] == normal[..j][k];
      }
      state := state[normal[j].name := true];
      j := j + 1;
    }
    assert normal[..j] == normal;
    assert state == AllCollapsed(CaseNames(sample) + CaseNames(normal));
  }

  datatype CaseBody = CaseBody(inputFile: string, input: Option<string>, outputFile: string, output: Option<string>)

  /** One case block: its 1-based number, its name and path, whether it is
      collapsed, and the input and output shown only when it is not. */
  datatype CaseView = CaseView(number: nat, name: string, absolutePath: string, collapsed: bool, body: Option<CaseBody>)

  datatype CaseSection = NoCasesFound | CaseList(items: seq<CaseView>)

  datatype ViewerView = LoadingView | ErrorView(message: string) | CasesView(heading: string, samples: CaseSection, normal: CaseSection)

  function RenderCase(tc: TestCase, index: nat, state: map<string, bool>): CaseView {
    var collapsed := IsCollapsed(state, tc.name);
    CaseView(index + 1, tc.name, tc.absolutePath, collapsed,
      if collapsed then None else Some(CaseBody(tc.inputFile, tc.input, tc.outputFile, tc.output)))
  }

  /** A collection renders as "No … cases found." when empty, otherwise as
      one block per case in collection order. */
  function RenderCases(cases: seq<TestCase>, state: map<string, bool>): (v: CaseSection)
    ensures v.NoCasesFound? <==> cases == []
    ensures v.CaseList? ==> |v.items| == |cases|
    ensures v.CaseList? ==> forall i :: 0 <= i < |cases| ==>
      && v.items[i].number == i + 1
      && v.items[i].name == cases[i].name
      && v.items[i].absolutePath == cases[i].absolutePath
      && v.items[i].collapsed == IsCollapsed(state, cases[i].name)
      && (v.items[i].body.Some? <==> !v.items[i].collapsed)
      && (v.items[i].body.Some? ==>
            v.items[i].body.value == CaseBody(cases[i].inputFile, cases[i].input, cases[i].outputFile, cases[i].output))
  {
    if cases == [] then NoCasesFound
    else CaseList(seq(|cases|, i requires 0 <= i < |cases| => RenderCase(cases[i], i, state)))
  }

  class Viewer {
    const problemId: string
    var testCases: CasesPayload
    var loading: bool
    var error: Option<string>
    var collapsedCases: map<string, bool>

    constructor (problemId: string)
      ensures this.problemId == problemId
      ensures testCases == CasesPayload([], []) && loading && error == None && collapsedCases == map[]
    {
      this.problemId := problemId;
      testCases := CasesPayload([], []);
      loading := true;
      error := None;
      collapsedCases := map[];
    }

    function DocumentTitle(): (t: string)
      reads this
      ensures t == "Test Cases for " + problemId
    {
      "Test Cases for " + problemId
    }

    /** `fetchTestCases`, handed the outcome of its request. */
    method FetchTestCases(response: Outcome<CasesPayload>)
      requires response.Ok? ==> KeysUniform(response.payload.sampleCases) && KeysUniform(response.payload.normalCases)
      modifies this
      ensures !loading
      ensures response.Ok? ==>
        && testCases.sampleCases == Sorting.SortByKey(response.payload.sampleCases, NumKey)
        && testCases.normalCases == Sorting.SortByKey(response.payload.normalCases, NumKey)
        && collapsedCases == AllCollapsed(CaseNames(response.payload.sampleCases) + CaseNames(response.payload.normalCases))
        && error == old(error)
      ensures !response.Ok? ==>
        && error == Some("Failed to fetch test cases: " + FailureMessage(response))
        && testCases == old(testCases) && collapsedCases == old(collapsedCases)
    {
      match response {
        case Ok(data) =>
          var sample := SortCollection(data.sampleCases);
          var normal := SortCollection(data.normalCases);
          testCases := CasesPayload(sample, normal);
          SortKeepsNames(data.sampleCases);
          SortKeepsNames(data.normalCases);
          collapsedCases := InitialCollapsedState(sample, normal);
        case _ =>
          error := Some("Failed to fetch test cases: " + FailureMessage(response));
      }
      loading := false;
    }

    /** `toggleCollapse(caseName)`. */
    method ToggleCollapse(caseName: string)
      modifies this
      ensures collapsedCases == Toggle(old(collapsedCases), caseName)
      ensures testCases == old(testCases) && loading == old(loading) && error == old(error)
    {
      collapsedCases := Toggle(collapsedCases, caseName);
    }

    /** The render branches: loading first, then the error, then both
      collections. */
    function View(): (v: ViewerView)
      reads this
      ensures loading ==> v == LoadingView
      ensures !loading && Truthy(error) ==> v == ErrorView(error.value)
      ensures !loading && !Truthy(error) ==>
        v == CasesView(DocumentTitle(), RenderCases(testCases.sampleCases, collapsedCases), RenderCases(testCases.normalCases, collapsedCases))
    {
      if loading then LoadingView
      else if Truthy(error) then ErrorView(error.value)
      else CasesView(DocumentTitle(), RenderCases(testCases.sampleCases, collapsedCases), RenderCases(testCases.normalCases, collapsedCases))
    }
  }

  lemma SameNames(s: seq<TestCase>, t: seq<TestCase>)
    requires multiset(s) == multiset(t)
    ensures CaseNames(s) == CaseNames(t)
  {
    forall n | n in CaseNames(s) ensures n in CaseNames(t) {
      var i :| 0 <= i < |s| && s[i].name == n;
      assert s[i] in multiset(t);
      var j :| 0 <= j < |t| && t[j] == s[i];
    }
    forall n | n in CaseNames(t) ensures n in CaseNames(s) {
      var i :| 0 <= i < |t| && t[i].name == n;
      assert t[i] in multiset(s);
      var j :| 0 <= j < |s| && s[j] == t[i];
    }
  }

  lemma SortKeepsNames(cases: seq<TestCase>)
    ensures CaseNames(Sorting.SortByKey(cases, NumKey)) == CaseNames(cases)
  {
    Sorting.SortPermutes(cases, NumKey);
    SameNames(Sorting.SortByKey(cases, NumKey), cases);
  }

  /** Mounting the page and settling its one request: a failure shows the
      error and no case; a success shows both collections sorted, every case
      collapsed and none of its input or output. */
  method Mount(problemId: string, response: Outcome<CasesPayload>) returns (view: ViewerView)
    requires response.Ok? ==> KeysUniform(response.payload.sampleCases) && KeysUniform(response.payload.normalCases)
    ensures !response.Ok? ==> view == ErrorView("Failed to fetch test cases: " + FailureMessage(response))
    ensures response.Ok? ==> view.CasesView?
    ensures response.Ok? ==> view.samples == RenderCases(Sorting.SortByKey(response.payload.sampleCases, NumKey), AllCollapsed(CaseNames(response.payload.sampleCases) + CaseNames(response.payload.normalCases)))
    ensures response.Ok? ==> view.normal == RenderCases(Sorting.SortByKey(response.payload.normalCases, NumKey), AllCollapsed(CaseNames(response.payload.sampleCases) + CaseNames(response.payload.normalCases)))
    ensures response.Ok? && view.samples.CaseList? ==> forall i :: 0 <= i < |view.samples.items| ==> view.samples.items[i].collapsed && view.samples.items[i].body.None?
    ensures response.Ok? && view.normal.CaseList? ==> forall i :: 0 <= i < |view.normal.items| ==> view.normal.items[i].collapsed && view.normal.items[i].body.None?
  {
    var viewer := new Viewer(problemId);
    viewer.FetchTestCases(response);
    view := viewer.View();
    if response.Ok? {
      var p := response.payload;
      var state := AllCollapsed(CaseNames(p.sampleCases) + CaseNames(p.normalCases));
      EveryCaseCollapsed(p.sampleCases, state, CaseNames(p.sampleCases) + CaseNames(p.normalCases));
      EveryCaseCollapsed(p.normalCases, state, CaseNames(p.sampleCases) + CaseNames(p.normalCases));
    }
  }

  /** A sorted collection whose names were all collapsed renders every block
      collapsed, without input or output. */
  lemma EveryCaseCollapsed(cases: seq<TestCase>, state: map<string, bool>, names: set<string>)
    requires CaseNames(cases) <= names && state == AllCollapsed(names)
    ensures var v := RenderCases(Sorting.SortByKey(cases, NumKey), state);
      v.CaseList? ==> forall i :: 0 <= i < |v.items| ==> v.items[i].collapsed && v.items[i].body.None?
  {
    var sorted := Sorting.SortByKey(cases, NumKey);
    SortKeepsNames(cases);
    forall i | 0 <= i < |sorted| ensures IsCollapsed(state, sorted[i].name) {
      assert sorted[i].name in CaseNames(sorted);
    }
  }
}
