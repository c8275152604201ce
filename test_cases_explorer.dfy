/** The entry page to the test cases: it fetches the problem list and shows
    the error, a loading line while the list is empty, or one row per
    problem linking to its test cases. */
module TestCasesExplorer {
  import opened Common

  datatype Row = Row(problemId: string, title: string, href: string)

  datatype ExplorerView = ErrorView(message: string) | LoadingProblems | Table(rows: seq<Row>)

  function ErrorText(message: string): (t: string)
    ensures |t| >= 26 && t[..26] == "Failed to fetch problems: " && t[26..] == message
  {
    "Failed to fetch problems: " + message
  }

  function RenderRows(problems: seq<ProblemSummary>): (rows: seq<Row>)
    ensures |rows| == |problems|
    ensures forall i :: 0 <= i < |rows| ==>
      rows[i] == Row(problems[i].id, problems[i].title, "/problems/" + problems[i].id + "/testcases")
  {
    seq(|problems|, i requires 0 <= i < |problems| =>
      Row(problems[i].id, problems[i].title, "/problems/" + problems[i].id + "/testcases"))
  }

  /** Two rows link to the same test-case page exactly when they show the
      same problem id. */
  lemma RowLinksIdentify(problems: seq<ProblemSummary>, i: nat, j: nat)
    requires i < |problems| && j < |problems|
    ensures RenderRows(problems)[i].href == RenderRows(problems)[j].href <==> problems[i].id == problems[j].id
  {
    var rows := RenderRows(problems);
    if rows[i].href == rows[j].href {
      LinkDeterminesId("/problems/", problems[i].id, problems[j].id, "/testcases");
    }
  }

  class Explorer {
    var problems: seq<ProblemSummary>
    var error: Option<string>

    constructor ()
      ensures problems == [] && error == None
    {
      problems := [];
      error := None;
    }

    method FetchProblems(response: Outcome<seq<ProblemSummary>>)
      modifies this
      ensures response.Ok? ==> problems == response.payload && error == old(error)
      ensures !response.Ok? ==> error == Some(ErrorText(FailureMessage(response))) && problems == old(problems)
    {
      match response {
        case Ok(data) => problems := data;
        case _ => error := Some(ErrorText(FailureMessage(response)));
      }
    }

    /** An empty list reads as still loading, also after an ok, empty
        response. */
    function View(): (v: ExplorerView)
      reads this
      ensures Truthy(error) ==> v == ErrorView(error.value)
      ensures !Truthy(error) && problems == [] ==> v == LoadingProblems
      ensures !Truthy(error) && problems != [] ==> v == Table(RenderRows(problems))
    {
      if Truthy(error) then ErrorView(error.value)
      else if problems == [] then LoadingProblems
      else Table(RenderRows(problems))
    }
  }

  /** Mounting the page and settling its request: an ok but empty list is
      indistinguishable from one still loading. */
  method Mount(response: Outcome<seq<ProblemSummary>>) returns (view: ExplorerView)
    ensures !response.Ok? ==> view == ErrorView("Failed to fetch problems: " + FailureMessage(response))
    ensures response.Ok? && response.payload == [] ==> view == LoadingProblems
    ensures response.Ok? && response.payload != [] ==> view == Table(RenderRows(response.payload))
  {
    var page := new Explorer();
    page.FetchProblems(response);
    view := page.View();
  }
}
