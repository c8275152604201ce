/** The application shell: the colour theme, kept in local storage, and the
    problem and contest lists fetched once, problems first. */
module App {
  import opened Common

  /** `localStorage.getItem('theme') || 'light'`. */
  function InitialTheme(stored: Option<string>): (t: string)
    ensures Truthy(stored) ==> t == stored.value
    ensures !Truthy(stored) ==> t == "light"
  {
    if Truthy(stored) then stored.value else "light"
  }

  /** 'light' becomes 'dark'; every other value becomes 'light'. */
  function NextTheme(theme: string): (t: string)
    ensures theme == "light" ==> t == "dark"
    ensures theme != "light" ==> t == "light"
  {
    if theme == "light" then "dark" else "light"
  }

  /** Toggling twice restores a light or dark theme. */
  lemma NextThemeTwice(theme: string)
    requires theme == "light" || theme == "dark"
    ensures NextTheme(NextTheme(theme)) == theme
  {
  }

  /** Any other stored value is replaced: after two toggles the theme is
      dark. */
  lemma NextThemeTwiceOther(theme: string)
    requires theme != "light" && theme != "dark"
    ensures NextTheme(NextTheme(theme)) == "dark"
  {
  }

  function ErrorText(message: string): (t: string)
    ensures |t| >= 22 && t[..22] == "Failed to fetch data: " && t[22..] == message
  {
    "Failed to fetch data: " + message
  }

  class Shell {
    var problems: Option<seq<ProblemSummary>>
    var contests: Option<seq<ContestSummary>>
    var error: Option<string>
    var theme: string
    /** The 'theme' entry of local storage. */
    var storedTheme: Option<string>

    constructor (stored: Option<string>)
      ensures problems == None && contests == None && error == None
      ensures theme == InitialTheme(stored) && storedTheme == stored
    {
      problems := None;
      contests := None;
      error := None;
      theme := InitialTheme(stored);
      storedTheme := stored;
    }

    /** `toggleTheme`: the next theme is both shown and stored. */
    method ToggleTheme()
      modifies this
      ensures theme == NextTheme(old(theme)) && storedTheme == Some(theme)
      ensures problems == old(problems) && contests == old(contests) && error == old(error)
    {
      var newTheme := NextTheme(theme);
      theme := newTheme;
      storedTheme := Some(newTheme);
    }

    /** `fetchData`, handed the outcome of the problems request and, for when
        it is issued, that of the contests request. */
    method FetchData(problemsResponse: Outcome<seq<ProblemSummary>>, contestsResponse: Outcome<seq<ContestSummary>>)
      modifies this
      ensures !problemsResponse.Ok? ==>
        error == Some(ErrorText(FailureMessage(problemsResponse))) &&
        problems == old(problems) && contests == old(contests)
      ensures problemsResponse.Ok? ==> problems == Some(problemsResponse.payload)
      ensures problemsResponse.Ok? && contestsResponse.Ok? ==>
        contests == Some(contestsResponse.payload) && error == old(error)
      ensures problemsResponse.Ok? && !contestsResponse.Ok? ==>
        contests == old(contests) && error == Some(ErrorText(FailureMessage(contestsResponse)))
      ensures theme == old(theme) && storedTheme == old(storedTheme)
    {
      if !problemsResponse.Ok? {
        error := Some(ErrorText(FailureMessage(problemsResponse)));
        return;
      }
      problems := Some(problemsResponse.payload);
      if !contestsResponse.Ok? {
        error := Some(ErrorText(FailureMessage(contestsResponse)));
        return;
      }
      contests := Some(contestsResponse.payload);
    }

    /** The red line above the routes, shown while the error is truthy. */
    function ErrorBanner(): (b: Option<string>)
      reads this
      ensures b.Some? <==> Truthy(error)
      ensures b.Some? ==> b == error
    {
      if Truthy(error) then error else None
    }
  }

  /** Starting the application and settling its requests. The contests are
      loaded only after the problems were; a failure of either keeps
      whatever was loaded before it and shows "Failed to fetch data: …". */
  method Mount(stored: Option<string>, problemsResponse: Outcome<seq<ProblemSummary>>, contestsResponse: Outcome<seq<ContestSummary>>)
    returns (problems: Option<seq<ProblemSummary>>, contests: Option<seq<ContestSummary>>, banner: Option<string>, theme: string)
    ensures contests.Some? <==> problemsResponse.Ok? && contestsResponse.Ok?
    ensures problems.Some? <==> problemsResponse.Ok?
    ensures problems.Some? ==> problems.value == problemsResponse.payload
    ensures contests.Some? ==> contests.value == contestsResponse.payload
    ensures !problemsResponse.Ok? ==> banner == Some("Failed to fetch data: " + FailureMessage(problemsResponse))
    ensures problemsResponse.Ok? && !contestsResponse.Ok? ==> banner == Some("Failed to fetch data: " + FailureMessage(contestsResponse))
    ensures problemsResponse.Ok? && contestsResponse.Ok? ==> banner == None
    ensures theme == InitialTheme(stored)
  {
    var shell := new Shell(stored);
    shell.FetchData(problemsResponse, contestsResponse);
    problems, contests, banner, theme := shell.problems, shell.contests, shell.ErrorBanner(), shell.theme;
  }

  /** Two clicks on the theme switch from a light or dark start bring the
      theme back and leave it stored. */
  method ToggleTwice(stored: Option<string>) returns (before: string, after: string, saved: Option<string>)
    requires stored == None || stored == Some("light") || stored == Some("dark") || stored == Some("")
    ensures after == before && saved == Some(before)
  {
    var shell := new Shell(stored);
    before := shell.theme;
    shell.ToggleTheme();
    shell.ToggleTheme();
    NextThemeTwice(before);
    after, saved := shell.theme, shell.storedTheme;
  }
}
