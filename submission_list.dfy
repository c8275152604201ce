/** The list of all submissions: it fetches them and shows the error alone
    or one row per submission. */
module SubmissionList {
  import opened Common

  datatype SubmissionSummary = SubmissionSummary(id: string, problemId: string, language: string)

  datatype Row = Row(id: string, href: string, problemId: string, problemHref: string, language: string)

  datatype ListView = ErrorView(message: string) | Table(rows: seq<Row>)

  function ErrorText(message: string): (t: string)
    ensures |t| >= 29 && t[..29] == "Failed to fetch submissions: " && t[29..] == message
  {
    "Failed to fetch submissions: " + message
  }

  function RenderRows(submissions: seq<SubmissionSummary>): (rows: seq<Row>)
    ensures |rows| == |submissions|
    ensures forall i :: 0 <= i < |rows| ==>
      rows[i] == Row(submissions[i].id, "/submissions/" + submissions[i].id,
                     submissions[i].problemId, "/problems/" + submissions[i].problemId, submissions[i].language)
  {
    seq(|submissions|, i requires 0 <= i < |submissions| =>
      Row(submissions[i].id, "/submissions/" + submissions[i].id,
          submissions[i].problemId, "/problems/" + submissions[i].problemId, submissions[i].language))
  }

  /** Two rows link to the same submission page exactly when they show the
      same submission id. */
  lemma RowLinksIdentify(submissions: seq<SubmissionSummary>, i: nat, j: nat)
    requires i < |submissions| && j < |submissions|
    ensures RenderRows(submissions)[i].href == RenderRows(submissions)[j].href <==> submissions[i].id == submissions[j].id
  {
    var rows := RenderRows(submissions);
    if rows[i].href == rows[j].href {
      LinkDeterminesId("/submissions/", submissions[i].id, submissions[j].id, "");
    }
  }

  class ListPage {
    var submissions: seq<SubmissionSummary>
    var error: Option<string>

    constructor ()
      ensures submissions == [] && error == None
    {
      submissions := [];
      error := None;
    }

    method FetchSubmissions(response: Outcome<seq<SubmissionSummary>>)
      modifies this
      ensures response.Ok? ==> submissions == response.payload && error == old(error)
      ensures !response.Ok? ==> error == Some(ErrorText(FailureMessage(response))) && submissions == old(submissions)
    {
      match response {
        case Ok(data) => submissions := data;
        case _ => error := Some(ErrorText(FailureMessage(response)));
      }
    }

    function View(): (v: ListView)
      reads this
      ensures Truthy(error) ==> v == ErrorView(error.value)
      ensures !Truthy(error) ==> v == Table(RenderRows(submissions))
    {
      if Truthy(error) then ErrorView(error.value) else Table(RenderRows(submissions))
    }
  }

  /** Mounting the list and settling its request: a failure shows only the
      error; a success one row per submission in payload order. */
  method Mount(response: Outcome<seq<SubmissionSummary>>) returns (view: ListView)
    ensures !response.Ok? ==> view == ErrorView("Failed to fetch submissions: " + FailureMessage(response))
    ensures response.Ok? ==> view == Table(RenderRows(response.payload))
  {
    var page := new ListPage();
    page.FetchSubmissions(response);
    view := page.View();
  }
}
