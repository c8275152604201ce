/** The page of one stored submission: it fetches the record and shows the
    error, a loading line, or the record with its verdict panel. */
module SubmissionDetail {
  import opened Common
  import opened SubmissionResult

  /** A stored submission: what it was and, as for a fresh result, an
      optional error and optional verdicts. */
  datatype Submission = Submission(
    id: string,
    problemId: string,
    language: string,
    code: string,
    error: Option<string>,
    results: Option<seq<Verdict>>)

  /** The record read as a submission result: the page hands the whole
      record to the verdict panel, which looks only at these two members. */
  function AsResult(s: Submission): (r: ResultRecord)
    ensures r.error == s.error && r.results == s.results
  {
    ResultRecord(s.error, s.results)
  }

  function ErrorText(message: string): (t: string)
    ensures |t| >= 28 && t[..28] == "Failed to fetch submission: " && t[28..] == message
  {
    "Failed to fetch submission: " + message
  }

  datatype DetailsView = DetailsView(id: string, problemId: string, problemHref: string, language: string, code: string, result: ResultPanel)

  datatype DetailView = ErrorView(message: string) | LoadingView | Details(details: DetailsView)

  class DetailPage {
    const submissionId: string
    var submission: Option<Submission>
    var error: Option<string>

    constructor (submissionId: string)
      ensures this.submissionId == submissionId && submission == None && error == None
    {
      this.submissionId := submissionId;
      submission := None;
      error := None;
    }

    /** `fetchSubmission`: every non-ok status, 404 included, is an error. */
    method FetchSubmission(response: Outcome<Submission>)
      modifies this
      ensures response.Ok? ==> submission == Some(response.payload) && error == old(error)
      ensures !response.Ok? ==> error == Some(ErrorText(FailureMessage(response))) && submission == old(submission)
    {
      match response {
        case Ok(data) => submission := Some(data);
        case _ => error := Some(ErrorText(FailureMessage(response)));
      }
    }

    /** Set when the page mounts, whatever the request brings. */
    function DocumentTitle(): (t: string)
      reads this
      ensures t == "Submission: " + submissionId
    {
      "Submission: " + submissionId
    }

    function View(): (v: DetailView)
      reads this
      ensures Truthy(error) ==> v == ErrorView(error.value)
      ensures !Truthy(error) && submission.None? ==> v == LoadingView
      ensures !Truthy(error) && submission.Some? ==>
        v.Details? && v.details.id == submission.value.id && v.details.code == submission.value.code &&
        v.details.problemId == submission.value.problemId && v.details.language == submission.value.language &&
        v.details.problemHref == "/problems/" + submission.value.problemId &&
        v.details.result == RenderResult(Some(AsResult(submission.value)))
    {
      if Truthy(error) then ErrorView(error.value)
      else match submission
        case None => LoadingView
        case Some(s) => Details(DetailsView(s.id, s.problemId, "/problems/" + s.problemId, s.language, s.code,
                                            RenderResult(Some(AsResult(s)))))
    }
  }

  /** Mounting the page and settling its request. A stored submission whose
      record carries a truthy error shows only that error in its panel;
      otherwise one row per verdict. */
  method Mount(submissionId: string, response: Outcome<Submission>) returns (view: DetailView, title: string)
    ensures title == "Submission: " + submissionId
    ensures !response.Ok? ==> view == ErrorView("Failed to fetch submission: " + FailureMessage(response))
    ensures response.Ok? ==> view.Details?
    ensures response.Ok? && Truthy(response.payload.error) ==> view.details.result == ErrorPanel(response.payload.error.value)
    ensures response.Ok? && !Truthy(response.payload.error) ==>
      view.details.result.Table? &&
      |view.details.result.rows| == (if response.payload.results.Some? then |response.payload.results.value| else 0)
  {
    var page := new DetailPage(submissionId);
    page.FetchSubmission(response);
    view := page.View();
    title := page.DocumentTitle();
  }
}
