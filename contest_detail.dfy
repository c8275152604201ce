/** The page of one contest: it fetches the contest bundle and renders the
    error, a not-available line, or the page with a collapsible problem
    list. */
module ContestDetail {
  import opened Common
  import opened Sections

  /** The fields of the parsed meta.json the page reads. */
  datatype ContestMeta = ContestMeta(
    name: Option<string>,
    description: Option<string>,
    authors: Option<seq<string>>,
    problems: Option<seq<string>>)

  /** The bundle an ok response carries. `metaContent` is None when meta.json
      is missing or empty. The server then sends null or "". Reading `name`
      of null throws at once. Every member of "" is undefined, so with "" the
      render throws later, at `authors.join`. Both are one crash here,
      labelled "meta.content". `rules` is the section the page reads under
      that name; the server's bundle has no such member. */
  datatype ContestData = ContestData(
    metaContent: Option<ContestMeta>,
    metaPath: Option<string>,
    contest: Section,
    theory: Section,
    rules: Option<Section>,
    absolutePath: string)

  datatype Contest = NotFoundMarker | Found(data: ContestData)

  function ErrorText(message: string): (t: string)
    ensures |t| >= 33 && t[..33] == "Failed to fetch contest details: " && t[33..] == message
  {
    "Failed to fetch contest details: " + message
  }

  datatype ProblemLink = ProblemLink(problemId: string, href: string)

  datatype PageView = PageView(
    heading: Option<string>,
    contestId: string,
    absolutePath: string,
    description: Option<string>,
    authorsLine: string,
    sections: seq<SectionView>,
    problemsCollapsed: bool,
    problems: Option<seq<ProblemLink>>)

  /** A render that throws a TypeError (a member of undefined or null read)
      is `Crashed`, naming what was missing: "meta.content" for a null or
      empty meta content, wherever in the page that throws. */
  datatype DetailView = ErrorView(message: string) | NotAvailableView | Page(page: PageView) | Crashed(missing: string)

  function ProblemLinks(ids: seq<string>): (links: seq<ProblemLink>)
    ensures |links| == |ids|
    ensures forall i :: 0 <= i < |ids| ==> links[i] == ProblemLink(ids[i], "/problems/" + ids[i])
  {
    seq(|ids|, i requires 0 <= i < |ids| => ProblemLink(ids[i], "/problems/" + ids[i]))
  }

  /** The page body as written: it reads `meta.content.authors`, the `rules`
      section, and, while expanded, `meta.content.problems`. */
  function RenderPage(contestId: string, data: ContestData, collapsed: bool): (v: DetailView)
    ensures v.Page? <==>
      data.metaContent.Some? && data.metaContent.value.authors.Some? && data.rules.Some? &&
      (collapsed || data.metaContent.value.problems.Some?)
    ensures v.Page? ==>
      && v.page.heading == data.metaContent.value.name
      && v.page.contestId == contestId
      && v.page.absolutePath == data.absolutePath
      && v.page.description == data.metaContent.value.description
      && v.page.authorsLine == Join(data.metaContent.value.authors.value, ", ")
      && v.page.sections == [RenderSection("Contest Details", data.contest), RenderSection("Theory", data.theory),
                             RenderSection("Rules", data.rules.value)]
      && v.page.problemsCollapsed == collapsed
      && (v.page.problems.Some? <==> !collapsed)
      && (!collapsed ==> v.page.problems.value == ProblemLinks(data.metaContent.value.problems.value))
  {
    match data.metaContent
    case None => Crashed("meta.content")
    case Some(meta) =>
      if meta.authors.None? then Crashed("meta.content.authors")
      else if data.rules.None? then Crashed("rules")
      else if !collapsed && meta.problems.None? then Crashed("meta.content.problems")
      else Page(PageView(meta.name, contestId, data.absolutePath, meta.description,
        Join(meta.authors.value, ", "),
        [RenderSection("Contest Details", data.contest), RenderSection("Theory", data.theory),
         RenderSection("Rules", data.rules.value)],
        collapsed,
        if collapsed then None else Some(ProblemLinks(meta.problems.value))))
  }

  /** The page body with the Rules section shown only when the bundle has
      one, which is what a bundle without that member calls for. */
  function RenderPageGuarded(contestId: string, data: ContestData, collapsed: bool): (v: DetailView)
    ensures v.Page? <==>
      data.metaContent.Some? && data.metaContent.value.authors.Some? &&
      (collapsed || data.metaContent.value.problems.Some?)
    ensures v.Page? ==>
      && v.page.heading == data.metaContent.value.name
      && v.page.contestId == contestId
      && v.page.absolutePath == data.absolutePath
      && v.page.description == data.metaContent.value.description
      && v.page.authorsLine == Join(data.metaContent.value.authors.value, ", ")
      && v.page.sections == [RenderSection("Contest Details", data.contest), RenderSection("Theory", data.theory)] +
                            (if data.rules.Some? then [RenderSection("Rules", data.rules.value)] else [])
      && v.page.problemsCollapsed == collapsed
      && (v.page.problems.Some? <==> !collapsed)
      && (!collapsed ==> v.page.problems.value == ProblemLinks(data.metaContent.value.problems.value))
  {
    match data.metaContent
    case None => Crashed("meta.content")
    case Some(meta) =>
      if meta.authors.None? then Crashed("meta.content.authors")
      else if !collapsed && meta.problems.None? then Crashed("meta.content.problems")
      else Page(PageView(meta.name, contestId, data.absolutePath, meta.description,
        Join(meta.authors.value, ", "),
        [RenderSection("Contest Details", data.contest), RenderSection("Theory", data.theory)] +
        (if data.rules.Some? then [RenderSection("Rules", data.rules.value)] else []),
        collapsed,
        if collapsed then None else Some(ProblemLinks(meta.problems.value))))
  }

  /** Where the bundle has a Rules section the two renderings agree. */
  lemma GuardedAgreesWithRules(contestId: string, data: ContestData, collapsed: bool)
    requires data.rules.Some?
    ensures RenderPageGuarded(contestId, data, collapsed) == RenderPage(contestId, data, collapsed)
  {
  }

  /** A bundle without a Rules section, as the server builds every one,
      never renders as written. */
  lemma ServerBundleCrashes(contestId: string, data: ContestData, collapsed: bool)
    requires data.rules.None?
    ensures RenderPage(contestId, data, collapsed).Crashed?
  {
  }

  class DetailPage {
    const contestId: string
    var contest: Option<Contest>
    var error: Option<string>
    var isProblemsCollapsed: bool

    constructor (contestId: string)
      ensures this.contestId == contestId
      ensures contest == None && error == None && isProblemsCollapsed
    {
      this.contestId := contestId;
      contest := None;
      error := None;
      isProblemsCollapsed := true;
    }

    /** `fetchContestDetail`, handed the outcome of its request. */
    method FetchContestDetail(response: Outcome<ContestData>)
      modifies this
      ensures response == Status(404) ==> contest == Some(NotFoundMarker) && error == old(error)
      ensures response.Ok? ==> contest == Some(Found(response.payload)) && error == old(error)
      ensures !response.Ok? && response != Status(404) ==>
        error == Some(ErrorText(FailureMessage(response))) && contest == old(contest)
      ensures isProblemsCollapsed == old(isProblemsCollapsed)
    {
      match response {
        case Status(code) =>
          if code == 404 {
            contest := Some(NotFoundMarker);
            return;
          }
          error := Some(ErrorText(HttpErrorMessage(code)));
        case Thrown(message) =>
          error := Some(ErrorText(message));
        case Ok(data) =>
          contest := Some(Found(data));
      }
    }

    /** `toggleProblemsCollapse`: the one flag flips. */
    method ToggleProblemsCollapse()
      modifies this
      ensures isProblemsCollapsed == !old(isProblemsCollapsed)
      ensures contest == old(contest) && error == old(error)
    {
      isProblemsCollapsed := !isProblemsCollapsed;
    }

    /** "Contest: <name>" when the meta content has a truthy name, otherwise
        "Contest Detail". */
    function DocumentTitle(): (t: string)
      reads this
      ensures (contest.Some? && contest.value.Found? && contest.value.data.metaContent.Some? &&
               Truthy(contest.value.data.metaContent.value.name)) ==>
        t == "Contest: " + contest.value.data.metaContent.value.name.value
      ensures !(contest.Some? && contest.value.Found? && contest.value.data.metaContent.Some? &&
                Truthy(contest.value.data.metaContent.value.name)) ==>
        t == "Contest Detail"
    {
      match contest
      case Some(Found(data)) =>
        if data.metaContent.Some? && Truthy(data.metaContent.value.name)
        then "Contest: " + data.metaContent.value.name.value else "Contest Detail"
      case _ => "Contest Detail"
    }

    /** The render priority as written: the error, then "Contest not
        available." for a pending or missing contest (there is no loading
        line), then the page. */
    function View(): (v: DetailView)
      reads this
      ensures Truthy(error) ==> v == ErrorView(error.value)
      ensures !Truthy(error) && (contest.None? || contest == Some(NotFoundMarker)) ==> v == NotAvailableView
      ensures !Truthy(error) && contest.Some? && contest.value.Found? ==>
        v == RenderPage(contestId, contest.value.data, isProblemsCollapsed)
    {
      if Truthy(error) then ErrorView(error.value)
      else match contest
        case Some(Found(data)) => RenderPage(contestId, data, isProblemsCollapsed)
        case _ => NotAvailableView
    }

    /** The same priority with the guarded page body. */
    function GuardedView(): (v: DetailView)
      reads this
      ensures Truthy(error) ==> v == ErrorView(error.value)
      ensures !Truthy(error) && (contest.None? || contest == Some(NotFoundMarker)) ==> v == NotAvailableView
      ensures !Truthy(error) && contest.Some? && contest.value.Found? ==>
        v == RenderPageGuarded(contestId, contest.value.data, isProblemsCollapsed)
    {
      if Truthy(error) then ErrorView(error.value)
      else match contest
        case Some(Found(data)) => RenderPageGuarded(contestId, data, isProblemsCollapsed)
        case _ => NotAvailableView
    }
  }

  /** Mounting the page, settling its request, and clicking the "Problems"
      header once when `clicked`. A 404 and a pending contest both show
      "Contest not available."; other failures show their error. With the
      guarded body a well-formed bundle shows the page, whose problem list is
      expanded exactly after the click. */
  method Mount(contestId: string, response: Outcome<ContestData>, clicked: bool)
    returns (view: DetailView, guarded: DetailView, title: string)
    ensures response == Status(404) ==> view == NotAvailableView && guarded == NotAvailableView && title == "Contest Detail"
    ensures !response.Ok? && response != Status(404) ==>
      view == ErrorView("Failed to fetch contest details: " + FailureMessage(response)) && title == "Contest Detail"
    ensures response.Ok? && response.payload.rules.None? ==> view.Crashed?
    ensures response.Ok? && response.payload.metaContent.Some? &&
            response.payload.metaContent.value.authors.Some? && response.payload.metaContent.value.problems.Some? ==>
      && guarded.Page?
      && guarded.page.problemsCollapsed == !clicked
      && (clicked ==> guarded.page.problems == Some(ProblemLinks(response.payload.metaContent.value.problems.value)))
  {
    var page := new DetailPage(contestId);
    page.FetchContestDetail(response);
    if clicked {
      page.ToggleProblemsCollapse();
    }
    view := page.View();
    guarded := page.GuardedView();
    title := page.DocumentTitle();
  }
}
