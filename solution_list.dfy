/** The list of problems that have a solution: it fetches their ids and
    shows the error, a notice for an empty list, or one row per id. */
module SolutionList {
  import opened Common

  datatype Row = Row(problemId: string, href: string)

  datatype ListView = ErrorView(message: string) | NoSolutions | Table(rows: seq<Row>)

  function ErrorText(message: string): (t: string)
    ensures |t| >= 27 && t[..27] == "Failed to fetch solutions: " && t[27..] == message
  {
    "Failed to fetch solutions: " + message
  }

  function RenderRows(ids: seq<string>): (rows: seq<Row>)
    ensures |rows| == |ids|
    ensures forall i :: 0 <= i < |rows| ==> rows[i] == Row(ids[i], "/solutions/" + ids[i])
  {
    seq(|ids|, i requires 0 <= i < |ids| => Row(ids[i], "/solutions/" + ids[i]))
  }

  /** Two rows link to the same solution page exactly when they show the
      same problem id. */
  lemma RowLinksIdentify(ids: seq<string>, i: nat, j: nat)
    requires i < |ids| && j < |ids|
    ensures RenderRows(ids)[i].href == RenderRows(ids)[j].href <==> ids[i] == ids[j]
  {
    var rows := RenderRows(ids);
    if rows[i].href == rows[j].href {
      LinkDeterminesId("/solutions/", ids[i], ids[j], "");
    }
  }

  class ListPage {
    var solutionIds: seq<string>
    var error: Option<string>

    constructor ()
      ensures solutionIds == [] && error == None
    {
      solutionIds := [];
      error := None;
    }

    method FetchSolutions(response: Outcome<seq<string>>)
      modifies this
      ensures response.Ok? ==> solutionIds == response.payload && error == old(error)
      ensures !response.Ok? ==> error == Some(ErrorText(FailureMessage(response))) && solutionIds == old(solutionIds)
    {
      match response {
        case Ok(data) => solutionIds := data;
        case _ => error := Some(ErrorText(FailureMessage(response)));
      }
    }

    function View(): (v: ListView)
      reads this
      ensures Truthy(error) ==> v == ErrorView(error.value)
      ensures !Truthy(error) && solutionIds == [] ==> v == NoSolutions
      ensures !Truthy(error) && solutionIds != [] ==> v == Table(RenderRows(solutionIds))
    {
      if Truthy(error) then ErrorView(error.value)
      else if solutionIds == [] then NoSolutions
      else Table(RenderRows(solutionIds))
    }
  }

  /** Mounting the list and settling its request. */
  method Mount(response: Outcome<seq<string>>) returns (view: ListView)
    ensures !response.Ok? ==> view == ErrorView("Failed to fetch solutions: " + FailureMessage(response))
    ensures response.Ok? && response.payload == [] ==> view == NoSolutions
    ensures response.Ok? && response.payload != [] ==> view == Table(RenderRows(response.payload))
  {
    var page := new ListPage();
    page.FetchSolutions(response);
    view := page.View();
  }
}
