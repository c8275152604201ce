/** The page of one problem: it fetches the problem bundle and then the
    contests the problem belongs to, collapses every sample, and renders the
    error, a loading line, a not-available line or the full page. */
module ProblemDetail {
  import opened Common
  import opened Sections
  import opened Collapse

  /** The fields of `meta.content` the page reads. The server sends an object
      here, empty when meta.json is missing or empty. */
  datatype ProblemMeta = ProblemMeta(
    title: Option<string>,
    difficulty: Option<string>,
    timeLimit: Option<string>,
    memoryLimit: Option<string>,
    authors: Option<seq<string>>,
    tags: Option<seq<string>>)

  datatype Sample = Sample(input: Option<string>, output: Option<string>, description: Option<string>)

  /** The bundle an ok response carries. */
  datatype ProblemData = ProblemData(
    meta: ProblemMeta,
    metaPath: string,
    description: Section,
    input: Section,
    output: Section,
    constraints: Section,
    notes: Section,
    absolutePath: string,
    samplesData: Option<seq<Sample>>)

  /** What `problem` holds once set: the marker `{error: "Problem not found"}`
      that a 404 stores, or the fetched bundle. */
  datatype Problem = NotFoundMarker | Found(data: ProblemData)

  const NotFoundMessage := "Problem not found"

  function ErrorText(message: string): (t: string)
    ensures |t| >= 30 && t[..30] == "Failed to fetch problem data: " && t[30..] == message
  {
    "Failed to fetch problem data: " + message
  }

  /** The sample indices `0 .. n-1`. */
  function Indices(n: nat): (r: set<int>)
    ensures forall i :: i in r <==> 0 <= i < n
  {
    if n == 0 then {} else Indices(n - 1) + {n - 1}
  }

  /** The `forEach` that marks every sample index collapsed. */
  method InitialSampleState(n: nat) returns (state: map<int, bool>)
    ensures state == AllCollapsed(Indices(n))
  {
    state := map[];
    var i := 0;
    while i < n
      invariant 0 <= i <= n
      invariant state == AllCollapsed(Indices(i))
    {
      state := state[i := true];
      i := i + 1;
    }
  }

  datatype SampleBody = SampleBody(description: Option<string>, input: Option<string>, output: Option<string>)

  /** One sample block: "Sample <number>", its arrow, and the body shown only
      while it is expanded. */
  datatype SampleView = SampleView(number: nat, collapsed: bool, body: Option<SampleBody>)

  datatype SampleSection = NoSamples | SampleList(items: seq<SampleView>)

  datatype PageView = PageView(
    heading: Option<string>,
    problemId: string,
    absolutePath: string,
    difficultyLine: string,
    timeLimitLine: string,
    memoryLimitLine: string,
    authorsLine: string,
    tagsLine: string,
    contests: Option<seq<ContestSummary>>,
    sections: seq<SectionView>,
    samples: SampleSection)

  datatype DetailView = ErrorView(message: string) | LoadingView | NotAvailableView | Page(page: PageView)

  function RenderSample(sample: Sample, index: nat, state: map<int, bool>): SampleView {
    var collapsed := IsCollapsed(state, index);
    SampleView(index + 1, collapsed,
      if collapsed then None
      else Some(SampleBody(if Truthy(sample.description) then sample.description else None, sample.input, sample.output)))
  }

  /** The "Sample Cases" part: a notice when there is no sample, otherwise
      sample i numbered i+1, collapsed exactly when entry i of the map is
      truthy, its body shown only when expanded. */
  function RenderSamples(samples: Option<seq<Sample>>, state: map<int, bool>): (v: SampleSection)
    ensures v.NoSamples? <==> samples.None? || samples.value == []
    ensures v.SampleList? ==> |v.items| == |samples.value| && forall i :: 0 <= i < |v.items| ==>
      && v.items[i].number == i + 1
      && v.items[i].collapsed == IsCollapsed(state, i)
      && (v.items[i].body.Some? <==> !IsCollapsed(state, i))
      && (v.items[i].body.Some? ==>
            && v.items[i].body.value.input == samples.value[i].input
            && v.items[i].body.value.output == samples.value[i].output
            && (v.items[i].body.value.description.Some? <==> Truthy(samples.value[i].description))
            && (v.items[i].body.value.description.Some? ==>
                  v.items[i].body.value.description == samples.value[i].description))
  {
    match samples
    case None => NoSamples
    case Some(s) =>
      if s == [] then NoSamples
      else SampleList(seq(|s|, i requires 0 <= i < |s| => RenderSample(s[i], i, state)))
  }

  /** The five content sections in page order. */
  function RenderSections(data: ProblemData): (v: seq<SectionView>)
    ensures |v| == 5
    ensures v[0] == RenderSection("Description", data.description)
    ensures v[1] == RenderSection("Input", data.input)
    ensures v[2] == RenderSection("Output", data.output)
    ensures v[3] == RenderSection("Constraints", data.constraints)
    ensures v[4] == RenderSection("Notes", data.notes)
  {
    [RenderSection("Description", data.description), RenderSection("Input", data.input),
     RenderSection("Output", data.output), RenderSection("Constraints", data.constraints),
     RenderSection("Notes", data.notes)]
  }

  /** What JSX shows for an optional value: the text, or nothing when it is
      undefined. */
  function Shown(o: Option<string>): (t: string)
    ensures o.Some? ==> t == o.value
    ensures o.None? ==> t == ""
  {
    if o.Some? then o.value else ""
  }

  function RenderPage(problemId: string, data: ProblemData, contests: seq<ContestSummary>, state: map<int, bool>): (p: PageView)
    ensures p.heading == data.meta.title
    ensures p.problemId == problemId && p.absolutePath == data.absolutePath
    ensures p.contests.Some? <==> |contests| > 0
    ensures p.contests.Some? ==> p.contests.value == contests
    ensures p.difficultyLine == Shown(data.meta.difficulty)
    ensures p.timeLimitLine == Shown(data.meta.timeLimit) + " ms"
    ensures p.memoryLimitLine == Shown(data.meta.memoryLimit) + " MB"
    ensures p.authorsLine == (if data.meta.authors.Some? then Join(data.meta.authors.value, ", ") else "N/A")
    ensures p.tagsLine == (if data.meta.tags.Some? then Join(data.meta.tags.value, ", ") else "N/A")
    ensures p.sections == RenderSections(data)
    ensures p.samples == RenderSamples(data.samplesData, state)
  {
    PageView(data.meta.title, problemId, data.absolutePath,
      Shown(data.meta.difficulty),
      Shown(data.meta.timeLimit) + " ms",
      Shown(data.meta.memoryLimit) + " MB",
      if data.meta.authors.Some? then Join(data.meta.authors.value, ", ") else "N/A",
      if data.meta.tags.Some? then Join(data.meta.tags.value, ", ") else "N/A",
      if |contests| > 0 then Some(contests) else None,
      RenderSections(data), RenderSamples(data.samplesData, state))
  }

  class DetailPage {
    const problemId: string
    var problem: Option<Problem>
    var partOfContests: seq<ContestSummary>
    var error: Option<string>
    var collapsedSamples: map<int, bool>

    constructor (problemId: string)
      ensures this.problemId == problemId
      ensures problem == None && partOfContests == [] && error == None && collapsedSamples == map[]
    {
      this.problemId := problemId;
      problem := None;
      partOfContests := [];
      error := None;
      collapsedSamples := map[];
    }

    /** `fetchProblemData`, handed the outcome of the problem request and,
        for when it is issued, the outcome of the contests request. */
    method FetchProblemData(problemResponse: Outcome<ProblemData>, contestsResponse: Outcome<seq<ContestSummary>>)
      modifies this
      ensures problemResponse == Status(404) ==>
        problem == Some(NotFoundMarker) && error == old(error) &&
        collapsedSamples == old(collapsedSamples) && partOfContests == old(partOfContests)
      ensures !problemResponse.Ok? && problemResponse != Status(404) ==>
        error == Some(ErrorText(FailureMessage(problemResponse))) && problem == old(problem) &&
        collapsedSamples == old(collapsedSamples) && partOfContests == old(partOfContests)
      ensures problemResponse.Ok? ==>
        && problem == Some(Found(problemResponse.payload))
        && collapsedSamples == (if problemResponse.payload.samplesData.Some?
                                then AllCollapsed(Indices(|problemResponse.payload.samplesData.value|))
                                else old(collapsedSamples))
        && partOfContests == (if contestsResponse.Ok? then contestsResponse.payload else old(partOfContests))
        && error == (if contestsResponse.Thrown? then Some(ErrorText(contestsResponse.message)) else old(error))
    {
      match problemResponse {
        case Status(code) =>
          if code == 404 {
            problem := Some(NotFoundMarker);
            return;
          }
          error := Some(ErrorText(HttpErrorMessage(code)));
        case Thrown(message) =>
          error := Some(ErrorText(message));
        case Ok(data) =>
          problem := Some(Found(data));
          if data.samplesData.Some? {
            collapsedSamples := InitialSampleState(|data.samplesData.value|);
          }
          match contestsResponse {
            case Ok(contests) => partOfContests := contests;
            case Status(_) =>
            case Thrown(message) => error := Some(ErrorText(message));
          }
      }
    }

    /** `toggleSampleCollapse(index)`. */
    method ToggleSampleCollapse(index: int)
      modifies this
      ensures collapsedSamples == Toggle(old(collapsedSamples), index)
      ensures problem == old(problem) && partOfContests == old(partOfContests) && error == old(error)
    {
      collapsedSamples := Toggle(collapsedSamples, index);
    }

    /** The document title: "Problem: <title>" when the bundle's meta
        content has a truthy title, otherwise "Problem Detail". */
    function DocumentTitle(): (t: string)
      reads this
      ensures problem.Some? && problem.value.Found? && Truthy(problem.value.data.meta.title) ==>
        t == "Problem: " + problem.value.data.meta.title.value
      ensures !(problem.Some? && problem.value.Found? && Truthy(problem.value.data.meta.title)) ==>
        t == "Problem Detail"
    {
      match problem
      case Some(Found(data)) =>
        if Truthy(data.meta.title) then "Problem: " + data.meta.title.value else "Problem Detail"
      case _ => "Problem Detail"
    }

    /** The render priority: error, then loading, then not available, then
        the page. */
    function View(): (v: DetailView)
      reads this
      ensures Truthy(error) ==> v == ErrorView(error.value)
      ensures !Truthy(error) && problem.None? ==> v == LoadingView
      ensures !Truthy(error) && problem == Some(NotFoundMarker) ==> v == NotAvailableView
      ensures !Truthy(error) && problem.Some? && problem.value.Found? ==>
        v == Page(RenderPage(problemId, problem.value.data, partOfContests, collapsedSamples))
    {
      if Truthy(error) then ErrorView(error.value)
      else match problem
        case None => LoadingView
        case Some(NotFoundMarker) => NotAvailableView
        case Some(Found(data)) => Page(RenderPage(problemId, data, partOfContests, collapsedSamples))
    }
  }

  /** Mounting the page and settling its requests. A 404 shows "Problem not
      available." under the default title; any other failure of the problem
      request shows its error; a success shows the page with every sample
      collapsed, unless the contests request threw. */
  method Mount(problemId: string, problemResponse: Outcome<ProblemData>, contestsResponse: Outcome<seq<ContestSummary>>)
    returns (view: DetailView, title: string)
    ensures problemResponse == Status(404) ==> view == NotAvailableView && title == "Problem Detail"
    ensures problemResponse.Status? && problemResponse != Status(404) ==>
      view == ErrorView("Failed to fetch problem data: " + HttpErrorMessage(problemResponse.code)) && title == "Problem Detail"
    ensures problemResponse.Thrown? ==> view == ErrorView("Failed to fetch problem data: " + problemResponse.message)
    ensures problemResponse.Ok? && contestsResponse.Thrown? ==> view == ErrorView("Failed to fetch problem data: " + contestsResponse.message)
    ensures problemResponse.Ok? && !contestsResponse.Thrown? ==> view.Page?
    ensures problemResponse.Ok? && !contestsResponse.Thrown? && view.page.samples.SampleList? ==>
      forall i :: 0 <= i < |view.page.samples.items| ==> view.page.samples.items[i].collapsed && view.page.samples.items[i].body.None?
    ensures problemResponse.Ok? && !contestsResponse.Thrown? ==>
      var data := problemResponse.payload;
      view == Page(RenderPage(problemId, data,
                              if contestsResponse.Ok? then contestsResponse.payload else [],
                              if data.samplesData.Some? then AllCollapsed(Indices(|data.samplesData.value|)) else map[]))
    ensures problemResponse.Ok? && Truthy(problemResponse.payload.meta.title) ==>
      title == "Problem: " + problemResponse.payload.meta.title.value
    ensures !(problemResponse.Ok? && Truthy(problemResponse.payload.meta.title)) ==> title == "Problem Detail"
  {
    var page := new DetailPage(problemId);
    page.FetchProblemData(problemResponse, contestsResponse);
    view := page.View();
    title := page.DocumentTitle();
  }
}
