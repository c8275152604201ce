/** The solution page of one problem: it fetches the solution and renders the
    error, a not-available line, or the solution with its source path,
    authors and text. */
module SolutionDetail {
  import opened Common

  /** The `solution` member of an ok response. */
  datatype SolutionRecord = SolutionRecord(content: Option<string>, filePath: Option<string>, authors: Option<seq<string>>)

  /** The body of an ok response; its `solution` member may be absent. */
  datatype SolutionPayload = SolutionPayload(solution: Option<SolutionRecord>)

  datatype Solution = NotFoundMarker | Found(record: SolutionRecord)

  function ErrorText(message: string): (t: string)
    ensures |t| >= 34 && t[..34] == "Failed to fetch solution details: " && t[34..] == message
  {
    "Failed to fetch solution details: " + message
  }

  datatype PageView = PageView(heading: string, source: Option<string>, authorsLine: Option<string>, body: Option<string>)

  datatype DetailView = ErrorView(message: string) | NotAvailableView | Page(page: PageView)

  /** The solution body: the source line needs a truthy path, the authors
      line a non-empty author list, the text truthy content. */
  function RenderPage(problemId: string, record: SolutionRecord): (p: PageView)
    ensures p.heading == "Solution for Problem " + problemId
    ensures p.source.Some? <==> Truthy(record.filePath)
    ensures p.source.Some? ==> p.source == Some("Source: " + record.filePath.value)
    ensures p.authorsLine.Some? <==> record.authors.Some? && |record.authors.value| > 0
    ensures p.authorsLine.Some? ==> p.authorsLine.value == Join(record.authors.value, ", ")
    ensures p.body.Some? <==> Truthy(record.content)
    ensures p.body.Some? ==> p.body == record.content
  {
    PageView("Solution for Problem " + problemId,
      if Truthy(record.filePath) then Some("Source: " + record.filePath.value) else None,
      if record.authors.Some? && |record.authors.value| > 0 then Some(Join(record.authors.value, ", ")) else None,
      if Truthy(record.content) then record.content else None)
  }

  class DetailPage {
    const problemId: string
    var solution: Option<Solution>
    var error: Option<string>

    constructor (problemId: string)
      ensures this.problemId == problemId && solution == None && error == None
    {
      this.problemId := problemId;
      solution := None;
      error := None;
    }

    /** `fetchSolutionDetail`, handed the outcome of its request: only the
        payload's `solution` member is kept. */
    method FetchSolutionDetail(response: Outcome<SolutionPayload>)
      modifies this
      ensures response == Status(404) ==> solution == Some(NotFoundMarker) && error == old(error)
      ensures response.Ok? ==>
        solution == (if response.payload.solution.Some? then Some(Found(response.payload.solution.value)) else None) &&
        error == old(error)
      ensures !response.Ok? && response != Status(404) ==>
        error == Some(ErrorText(FailureMessage(response))) && solution == old(solution)
    {
      match response {
        case Status(code) =>
          if code == 404 {
            solution := Some(NotFoundMarker);
            return;
          }
          error := Some(ErrorText(HttpErrorMessage(code)));
        case Thrown(message) =>
          error := Some(ErrorText(message));
        case Ok(data) =>
          solution := if data.solution.Some? then Some(Found(data.solution.value)) else None;
      }
    }

    /** "Solution: <id>" exactly when a solution without an error is held. */
    function DocumentTitle(): (t: string)
      reads this
      ensures solution.Some? && solution.value.Found? ==> t == "Solution: " + problemId
      ensures !(solution.Some? && solution.value.Found?) ==> t == "Solution Detail"
    {
      if solution.Some? && solution.value.Found? then "Solution: " + problemId else "Solution Detail"
    }

    /** The error first, then "Solution not available." for a pending or
        missing solution, then the solution. */
    function View(): (v: DetailView)
      reads this
      ensures Truthy(error) ==> v == ErrorView(error.value)
      ensures !Truthy(error) && (solution.None? || solution == Some(NotFoundMarker)) ==> v == NotAvailableView
      ensures !Truthy(error) && solution.Some? && solution.value.Found? ==>
        v == Page(RenderPage(problemId, solution.value.record))
    {
      if Truthy(error) then ErrorView(error.value)
      else match solution
        case Some(Found(record)) => Page(RenderPage(problemId, record))
        case _ => NotAvailableView
    }
  }

  /** Mounting the page and settling its request. The page shows the
      solution, under the title "Solution: <id>", exactly when the response
      was ok and carried a solution. */
  method Mount(problemId: string, response: Outcome<SolutionPayload>) returns (view: DetailView, title: string)
    ensures view.Page? <==> response.Ok? && response.payload.solution.Some?
    ensures view.Page? ==> view.page == RenderPage(problemId, response.payload.solution.value)
    ensures title == "Solution: " + problemId <==> response.Ok? && response.payload.solution.Some?
    ensures response == Status(404) ==> view == NotAvailableView
    ensures !response.Ok? && response != Status(404) ==> view == ErrorView("Failed to fetch solution details: " + FailureMessage(response))
  {
    var page := new DetailPage(problemId);
    page.FetchSolutionDetail(response);
    view := page.View();
    title := page.DocumentTitle();
    assert "Solution Detail" != "Solution: " + problemId by {
      assert ("Solution: " + problemId)[8] == ':';
    }
  }
}
