# A verified model of the Annaforces local testing site

The repository is a local browser for a competitive-programming archive. It has two parts:

- A React client lists problems, contests, solutions and submissions. It shows one problem with its samples and test cases, or one contest, and posts solutions through a form.
- A small Flask server (app.py) answers those requests from a data directory of JSON and Markdown files.

This Dafny project models the deterministic logic of both parts and proves what the code promises:

- **Client components.** Each component is a `class` whose fields are the component's state variables. Each handler is a `method` that takes the outcome of its request as a value: `Ok(payload)`, `Status(n)` for a non-ok status, or `Thrown(message)`. Each render is a pure function of the fields, giving a view datatype. A `Mount` method per component runs the effect and returns what the page then shows.
- **Test-case sort.** The test-case viewer sorts an `array` in place with the source's comparator. It is proved to be the stable sort by the parsed key. The key is `parseInt` as section 19.2.5 of ECMA-262 defines it.
- **Server.** Handlers read an abstract file system: a map from file paths to text (plus what `json.loads` makes of it) and a map from directory paths to listings. Each reply is a `Response`: a status and a JSON body, or the 500 of an uncaught exception. Handlers that loop are methods proved equal to a specification function, and the properties of the replies are lemmas about those functions.

Files:

- common: shared vocabulary.
- sorting: stable sort by key, and the in-place insertion sort.
- py_int: Python `int()` on a string.
- lex: Python string order and `sorted`.
- parse_int: JavaScript `parseInt`.
- collapse: collapse maps.
- sections: content/path sections.
- One file per client component.
- json and filesystem: the server's values and data directory.
- server_lists, server_details, server_testcases and server_contests: the handlers of app.py.

## Model

| member | source | states |
|---|---|---|
| Common.NatToStringRoundTrip | app/src/components/TestCasesViewer/index.js:20 | the decimal status code in an error message reads back as the code itself |
| Common.NatToString | app/src/App.js:40 | the decimal text of `${problemsResponse.status}`: at least one digit, no leading zero except for 0 itself; NatToStringRoundTrip reads it back as the code |
| Common.HttpErrorMessage | app/src/App.js:40 | the message is "HTTP error! status: " followed by exactly the decimal code |
| Common.HttpErrorMessageInjective | app/src/App.js:40 | different status codes give different messages |
| Common.LinkDeterminesId | app/src/components/SolutionList/index.js:43-50 | a link built as prefix, id and suffix determines its id: equal links come from equal ids |
| Common.FailureMessage | app/src/App.js:38-53 | what a catch block sees: the HTTP message for a non-ok status, the exception's own message for a throw |
| JsParseInt.BeforeFirstDot | app/src/components/TestCasesViewer/index.js:26 | `split('.')[0]`: the longest dot-free prefix, ending at the first dot when there is one |
| JsParseInt.ParseDigits | app/src/components/TestCasesViewer/index.js:26 | NaN exactly when no digit starts the text |
| JsParseInt.CaseKeyOfLeadingDigits | app/src/components/TestCasesViewer/index.js:26-27 | a name starting with digits has as key the number those digits spell, whatever follows |
| JsParseInt.CaseKeyAbsent | app/src/components/TestCasesViewer/index.js:26-27 | a name starting with none of white space, sign or digit has no key (NaN) |
| JsParseInt.CaseKeyOfNumberedName | app/src/components/TestCasesViewer/index.js:26-27 | the key of "<n>.<ext>" is n for every n and extension |
| JsParseInt.ServerCaseNamesHaveNoKey | app.py:185 | names of the form "samples/…" and "testcases/…" never have a key |
| JsParseInt.ParseInt | app/src/components/TestCasesViewer/index.js:26 | `parseInt(s, 10)`: leading white space skipped, one optional sign, then the value of the longest digit run, NaN without one; what it means is stated by ParseDigits, CaseKeyOfLeadingDigits and CaseKeyAbsent |
| JsParseInt.CaseKey | app/src/components/TestCasesViewer/index.js:26-27 | the viewer's sort key: `parseInt` of the text before the first dot; stated by CaseKeyOfNumberedName, CaseKeyOfLeadingDigits, CaseKeyAbsent and ServerCaseNamesHaveNoKey |
| JsParseInt.ExampleKeyTwo | app/src/components/TestCasesViewer/index.js:26-27 | "2a.txt" has key 2 |
| JsParseInt.ExampleKeyServerName | app/src/components/TestCasesViewer/index.js:26-27 | "testcases/1" has no key |
| Sorting.SortPermutes | app/src/components/TestCasesViewer/index.js:25-29 | the sort keeps every element, as often as it occurred |
| Sorting.SortKeepsMembers | app.py:115 | the sort keeps exactly the elements it was given |
| Sorting.SortSorts | app/src/components/TestCasesViewer/index.js:25-29 | the result has non-decreasing keys |
| Sorting.SortIsStable | app/src/components/TestCasesViewer/index.js:25-29 | elements with equal keys keep their input order |
| Sorting.SortConstantKey | app/src/components/TestCasesViewer/index.js:26-28 | when every key is equal nothing moves |
| Sorting.SortByKey | app/src/components/TestCasesViewer/index.js:25-29 | the stable insertion sort by an integer key; SortPermutes, SortSorts and SortIsStable state that it is the stable sorted permutation, SortInPlace that the in-place array sort leaves it |
| Sorting.ShiftInsert | app/src/components/TestCasesViewer/index.js:25-29 | one pass moves the next element into the sorted prefix and leaves the rest of the array alone |
| Sorting.SortInPlace | app/src/components/TestCasesViewer/index.js:25-29 | an in-place sort driven by a comparator whose sign is that of a key difference leaves the stable sort by that key |
| TestCasesViewer.CompareAgreesWithKeys | app/src/components/TestCasesViewer/index.js:25-28 | with both keys numeric or both NaN, the comparator, with NaN read as 0, is the key difference |
| TestCasesViewer.Compare | app/src/components/TestCasesViewer/index.js:25-28 | the comparator `numA - numB`, a NaN difference read as 0; CompareAgreesWithKeys ties it to NumKey |
| TestCasesViewer.NumKey | app/src/components/TestCasesViewer/index.js:26-27 | the key a case sorts by: its CaseKey where numeric, 0 for NaN; SortedCasesProperties and SortCases state the order it gives |
| TestCasesViewer.SortedCasesProperties | app/src/components/TestCasesViewer/index.js:25-29 | the sorted cases are a permutation; with numeric keys they are in non-decreasing key order and stable; with no numeric key the order is unchanged |
| TestCasesViewer.SortCases | app/src/components/TestCasesViewer/index.js:24-30 | `cases.sort` in place on an array leaves the stable sort by key |
| TestCasesViewer.SortCollection | app/src/components/TestCasesViewer/index.js:32-33 | each collection is sorted on its own and the sorted array is the one returned |
| TestCasesViewer.InitialCollapsedState | app/src/components/TestCasesViewer/index.js:40-47 | the two loops give a map whose keys are exactly the names of both collections, every one collapsed |
| TestCasesViewer.RenderCases | app/src/components/TestCasesViewer/index.js:66-87 | an empty collection shows "no cases"; otherwise one block per case in order, numbered from 1, carrying the case's name and path, with its input and output files and texts shown exactly when expanded |
| TestCasesViewer.Viewer.constructor | app/src/components/TestCasesViewer/index.js:9-12 | empty collections, loading, no error, empty collapse map |
| TestCasesViewer.Viewer.FetchTestCases | app/src/components/TestCasesViewer/index.js:16-54 | success stores both collections sorted and collapses every case; failure sets "Failed to fetch test cases: …" and keeps the collections; loading ends either way |
| TestCasesViewer.Viewer.ToggleCollapse | app/src/components/TestCasesViewer/index.js:59-64 | only the named entry flips, the rest of the state is unchanged |
| TestCasesViewer.Viewer.View | app/src/components/TestCasesViewer/index.js:89-117 | loading first, then a truthy error, then both collections |
| TestCasesViewer.Viewer.DocumentTitle | app/src/components/TestCasesViewer/index.js:15 | "Test Cases for <problemId>", the title View puts on the cases page |
| TestCasesViewer.SortKeepsNames | app/src/components/TestCasesViewer/index.js:32-47 | sorting does not change the set of case names the collapse map is built from |
| TestCasesViewer.EveryCaseCollapsed | app/src/components/TestCasesViewer/index.js:40-87 | a sorted collection whose names were all collapsed renders every block collapsed, with no input or output |
| TestCasesViewer.Mount | app/src/components/TestCasesViewer/index.js:14-57 | after the request, a failure shows its error; a success shows the normal collection as its stable sort by key, both collections with every case collapsed and no input or output visible |
| Collapse.Toggle | app/src/components/TestCasesViewer/index.js:59-64 | the key flips (a missing key becomes collapsed), every other key keeps its value, and the key set gains only that key |
| Collapse.ToggleTwice | app/src/components/TestCasesViewer/index.js:59-64 | toggling a present key twice restores the map |
| Collapse.AllCollapsed | app/src/components/ProblemDetail/index.js:31-37 | exactly the given keys, each collapsed |
| Sections.RenderSection | app/src/components/ProblemDetail/index.js:68-73 | the path shows exactly when truthy and the body exactly when its content is truthy |
| SubmissionResult.Lower | app/src/components/SubmissionResult/index.js:32 | same length, each character ASCII lower-cased |
| SubmissionResult.Hyphenate | app/src/components/SubmissionResult/index.js:32 | same length, every space replaced by '-' and nothing else changed |
| SubmissionResult.StatusClass | app/src/components/SubmissionResult/index.js:32 | "status-" then one folded character per status character: length 7 plus the status length, and no space |
| SubmissionResult.StatusClassCollision | app/src/components/SubmissionResult/index.js:32 | two statuses give the same class exactly when they have equal length and fold alike character by character |
| SubmissionResult.StatusClassWrongAnswer | app/src/components/SubmissionResult/index.js:32 | "Wrong Answer" gives "status-wrong-answer" |
| SubmissionResult.StatusClassNotInjective | app/src/components/SubmissionResult/index.js:32 | "Wrong Answer" and "wrong-answer" give the same class |
| SubmissionResult.RenderResult | app/src/components/SubmissionResult/index.js:4-43 | no result means no panel; a truthy error means the error panel alone; otherwise one row per verdict in order, and none without results |
| SubmissionForm.FailureResult | app/src/components/SubmissionForm/index.js:28-31 | the stored failure carries the fixed message and no results |
| SubmissionForm.Form.constructor | app/src/components/SubmissionForm/index.js:4-6 | empty code, language "python", not submitting, no result |
| SubmissionForm.Form.SetCode | app/src/components/SubmissionForm/index.js:49-55 | only the code changes, and the language stays one the select offers |
| SubmissionForm.Form.SetLanguage | app/src/components/SubmissionForm/index.js:42-45 | only the language changes, to one the select offers |
| SubmissionForm.Form.ButtonDisabled | app/src/components/SubmissionForm/index.js:57 | the button is disabled exactly while submitting |
| SubmissionForm.Form.ButtonLabel | app/src/components/SubmissionForm/index.js:58 | "Submitting..." while submitting, "Submit" otherwise |
| SubmissionForm.Form.BeginSubmit | app/src/components/SubmissionForm/index.js:8-20 | when enabled and the code is non-empty: marks submitting, clears the result, and issues a request with exactly the current code and language, which is one the select offers; otherwise nothing changes |
| SubmissionForm.Form.CompleteSubmit | app/src/components/SubmissionForm/index.js:22-33 | an ok body becomes the result unchanged, any failure the fixed error record; submitting ends in every case |
| SubmissionForm.SubmitOnce | app/src/components/SubmissionForm/index.js:8-33 | a whole submission: the request carries what was typed and chosen, the form ends idle, and the panel shows the server's result or the fixed error |
| SubmissionForm.DoubleSubmit | app/src/components/SubmissionForm/index.js:57 | a second submit during the first issues no request |
| ProblemDetail.ErrorText | app/src/components/ProblemDetail/index.js:46 | "Failed to fetch problem data: " followed by the message |
| ProblemDetail.Indices | app/src/components/ProblemDetail/index.js:33-35 | exactly the indices 0 to n-1 |
| ProblemDetail.InitialSampleState | app/src/components/ProblemDetail/index.js:32-36 | the loop collapses exactly the sample indices 0 to n-1 |
| ProblemDetail.RenderSamples | app/src/components/ProblemDetail/index.js:137-163 | no samples means the "no samples" line; otherwise one block per sample in order, its body (input, output, and the description text when truthy) shown exactly when expanded |
| ProblemDetail.RenderSections | app/src/components/ProblemDetail/index.js:113-135 | the five sections in page order, each rendered by the section rule |
| ProblemDetail.RenderPage | app/src/components/ProblemDetail/index.js:87-167 | heading, problem id and path; difficulty, "<time> ms" and "<memory> MB" lines, empty where the value is undefined; authors and tags lines ("N/A" when absent); the contests box exactly when there are contests; then sections and samples |
| ProblemDetail.DetailPage.constructor | app/src/components/ProblemDetail/index.js:11-14 | no problem, no contests, no error, empty collapse map |
| ProblemDetail.DetailPage.FetchProblemData | app/src/components/ProblemDetail/index.js:17-51 | a 404 stores the not-found marker only; another failure sets the error; success stores the bundle, collapses its samples, takes the contests only from an ok response and sets the error when that request throws |
| ProblemDetail.DetailPage.ToggleSampleCollapse | app/src/components/ProblemDetail/index.js:61-66 | only sample entry i flips |
| ProblemDetail.DetailPage.DocumentTitle | app/src/components/ProblemDetail/index.js:53-59 | "Problem: <title>" exactly when the meta title is truthy, otherwise "Problem Detail" |
| ProblemDetail.DetailPage.View | app/src/components/ProblemDetail/index.js:75-85 | error, then loading, then not available, then the page |
| ProblemDetail.Mount | app/src/components/ProblemDetail/index.js:17-85 | 404 means "not available" under the default title; other failures show their error under the default title; success shows exactly the page rendered from the bundle, the contests of an ok contests response (none otherwise) and every sample collapsed, unless the contests request threw; the title is "Problem: <title>" for a truthy meta title and "Problem Detail" in every other case |
| ContestDetail.ErrorText | app/src/components/ContestDetail/index.js:26 | "Failed to fetch contest details: " followed by the message |
| ContestDetail.ProblemLinks | app/src/components/ContestDetail/index.js:89-93 | one link per problem id, in order, to /problems/<id> |
| ContestDetail.RenderPage | app/src/components/ContestDetail/index.js:60-99 | as written: the page renders exactly when meta content, its authors and the rules section are present and, if expanded, its problem list; otherwise the render throws; the page carries the contest id, the absolute path and the meta description |
| ContestDetail.ServerBundleCrashes | app/src/components/ContestDetail/index.js:78-79 | a bundle without a rules section, which is every bundle the server sends, never renders |
| ContestDetail.RenderPageGuarded | app/src/components/ContestDetail/index.js:60-99 | corrected: the Rules section appears only when present; expanded lists show one link per problem, collapsed lists none |
| ContestDetail.GuardedAgreesWithRules | app/src/components/ContestDetail/index.js:72-79 | with a rules section both renderings agree |
| ContestDetail.DetailPage.constructor | app/src/components/ContestDetail/index.js:8-10 | no contest, no error, problems collapsed |
| ContestDetail.DetailPage.FetchContestDetail | app/src/components/ContestDetail/index.js:13-28 | a 404 stores the marker, success the bundle, and other failures set the error |
| ContestDetail.DetailPage.ToggleProblemsCollapse | app/src/components/ContestDetail/index.js:41-43 | only the collapse flag flips |
| ContestDetail.DetailPage.DocumentTitle | app/src/components/ContestDetail/index.js:33-39 | "Contest: <name>" exactly when the meta name is truthy, otherwise "Contest Detail" |
| ContestDetail.DetailPage.View | app/src/components/ContestDetail/index.js:52-58 | error first; no contest or the marker gives "not available" (there is no loading view); otherwise the page as written |
| ContestDetail.DetailPage.GuardedView | app/src/components/ContestDetail/index.js:52-58 | the same priority with the corrected page body |
| ContestDetail.Mount | app/src/components/ContestDetail/index.js:12-99 | 404 means "not available"; other failures show the error; a server bundle crashes as written, while the corrected page shows the problem list expanded exactly after a click |
| SolutionDetail.ErrorText | app/src/components/SolutionDetail/index.js:25 | "Failed to fetch solution details: " followed by the message |
| SolutionDetail.RenderPage | app/src/components/SolutionDetail/index.js:48-60 | the source line needs a truthy path, the authors line non-empty authors, and the body truthy content |
| SolutionDetail.DetailPage.constructor | app/src/components/SolutionDetail/index.js:8-9 | no solution, no error |
| SolutionDetail.DetailPage.FetchSolutionDetail | app/src/components/SolutionDetail/index.js:12-27 | a 404 stores the marker; success stores only the payload's solution; other failures set the error |
| SolutionDetail.DetailPage.DocumentTitle | app/src/components/SolutionDetail/index.js:32-38 | "Solution: <id>" exactly when a solution without error is present |
| SolutionDetail.DetailPage.View | app/src/components/SolutionDetail/index.js:40-46 | error, then "not available" for pending or not found, then the page |
| SolutionDetail.Mount | app/src/components/SolutionDetail/index.js:11-60 | the page shows exactly when the response is ok and carries a solution, and so does the specific title |
| ContestList.GetContestStatus | app/src/components/ContestList/index.js:11-23 | Scheduled exactly when now < start; Running exactly when start <= now <= end; Finished exactly otherwise |
| ContestList.NeverRunningWhenInverted | app/src/components/ContestList/index.js:16-22 | with start after end a contest is never running |
| ContestList.FinishedMeansPastEnd | app/src/components/ContestList/index.js:16-22 | with start <= end, finished exactly when now > end |
| ContestList.StatusIsMonotone | app/src/components/ContestList/index.js:16-22 | with start <= end, a later time never gives an earlier stage |
| App.InitialTheme | app/src/App.js:27 | the stored theme when truthy, otherwise "light" |
| App.NextTheme | app/src/App.js:30 | "light" goes to "dark", anything else to "light" |
| App.NextThemeTwice | app/src/App.js:29-33 | toggling twice from "light" or "dark" restores it |
| App.NextThemeTwiceOther | app/src/App.js:29-33 | toggling twice from any other value gives "dark" |
| App.ErrorText | app/src/App.js:53 | "Failed to fetch data: " followed by the message |
| App.Shell.constructor | app/src/App.js:24-27 | no lists, no error, the initial theme from storage |
| App.Shell.ToggleTheme | app/src/App.js:29-33 | the next theme is both shown and stored; nothing else changes |
| App.Shell.FetchData | app/src/App.js:35-55 | contests are taken only after problems were; a failure of either sets the error and keeps what was stored before it |
| App.Shell.ErrorBanner | app/src/App.js:63 | the banner shows exactly when the error is truthy |
| App.Mount | app/src/App.js:23-63 | contests are present exactly when both requests succeeded, problems exactly when the first did; the banner names the request that failed |
| App.ToggleTwice | app/src/App.js:29-33 | two clicks from a stored "light", "dark" or nothing restore the theme and leave it stored |
| SubmissionDetail.AsResult | app/src/components/SubmissionDetail/index.js:48 | the record itself is what the result panel reads: same error and results |
| SubmissionDetail.ErrorText | app/src/components/SubmissionDetail/index.js:21 | "Failed to fetch submission: " followed by the message |
| SubmissionDetail.DetailPage.constructor | app/src/components/SubmissionDetail/index.js:8-9 | no submission, no error |
| SubmissionDetail.DetailPage.FetchSubmission | app/src/components/SubmissionDetail/index.js:12-23 | every failure, 404 included, sets the error; success stores the record |
| SubmissionDetail.DetailPage.DocumentTitle | app/src/components/SubmissionDetail/index.js:26 | "Submission: <id>" whatever the outcome |
| SubmissionDetail.DetailPage.View | app/src/components/SubmissionDetail/index.js:29-50 | error, then loading, then the details: the record's id, problem id, language and code, a link to /problems/<problem id>, and its result panel |
| SubmissionDetail.Mount | app/src/components/SubmissionDetail/index.js:11-50 | a failure shows the error; a record with a truthy error shows the error panel, otherwise its rows |
| SubmissionList.ErrorText | app/src/components/SubmissionList/index.js:19 | "Failed to fetch submissions: " followed by the message |
| SubmissionList.RenderRows | app/src/components/SubmissionList/index.js:44-51 | one row per submission in order, with its links |
| SubmissionList.RowLinksIdentify | app/src/components/SubmissionList/index.js:44-51 | two rows link to the same submission page exactly when they show the same submission id |
| SubmissionList.ListPage.constructor | app/src/components/SubmissionList/index.js:6-7 | the list starts empty, with no error |
| SubmissionList.ListPage.FetchSubmissions | app/src/components/SubmissionList/index.js:10-21 | success replaces the list with the payload; failure sets the error and keeps the list |
| SubmissionList.ListPage.View | app/src/components/SubmissionList/index.js:27-55 | an error renders alone, otherwise the table |
| SubmissionList.Mount | app/src/components/SubmissionList/index.js:9-55 | a failure shows the error; a success shows one row per submission |
| SolutionList.ErrorText | app/src/components/SolutionList/index.js:20 | "Failed to fetch solutions: " followed by the message |
| SolutionList.RenderRows | app/src/components/SolutionList/index.js:43-50 | one row per id in order, linking to /solutions/<id> |
| SolutionList.RowLinksIdentify | app/src/components/SolutionList/index.js:43-50 | two rows link to the same solution page exactly when they show the same problem id |
| SolutionList.ListPage.constructor | app/src/components/SolutionList/index.js:6-7 | empty list, no error |
| SolutionList.ListPage.FetchSolutions | app/src/components/SolutionList/index.js:11-22 | success replaces the ids with the payload; failure sets the error |
| SolutionList.ListPage.View | app/src/components/SolutionList/index.js:27-56 | error first; an empty list shows "No solutions available."; otherwise the table |
| SolutionList.Mount | app/src/components/SolutionList/index.js:9-56 | failure shows the error, an empty success the empty line, otherwise one row per id |
| TestCasesExplorer.ErrorText | app/src/components/TestCasesExplorer/index.js:20 | "Failed to fetch problems: " followed by the message |
| TestCasesExplorer.RenderRows | app/src/components/TestCasesExplorer/index.js:45-52 | one row per problem, linking to /problems/<id>/testcases |
| TestCasesExplorer.RowLinksIdentify | app/src/components/TestCasesExplorer/index.js:45-52 | two rows link to the same test-case page exactly when they show the same problem id |
| TestCasesExplorer.Explorer.constructor | app/src/components/TestCasesExplorer/index.js:6-7 | empty list, no error |
| TestCasesExplorer.Explorer.FetchProblems | app/src/components/TestCasesExplorer/index.js:11-22 | success replaces the problems with the payload; failure sets the error |
| TestCasesExplorer.Explorer.View | app/src/components/TestCasesExplorer/index.js:27-60 | error first; an empty list shows "Loading problems..."; otherwise the table |
| TestCasesExplorer.Mount | app/src/components/TestCasesExplorer/index.js:9-60 | an empty successful response still shows "Loading problems..." |
| Json.Lookup | app.py:102 | absent exactly when no member has the key |
| Json.Keys | app.py:243 | the key list of a dict, one key per member in member order, which `in` on a dict searches |
| PythonInt.PyIntOfDigits | app.py:34 | `int()` of a run of decimal digits is the number they spell |
| PythonInt.PyIntOfNegated | app.py:34 | a minus sign before the digits negates the number |
| PythonInt.PyIntOfNat | app.py:34 | `int(str(n)) == n` for every natural number |
| PythonInt.PyIntRejects | app.py:115 | a character that is not white space, a digit, an underscore or a sign makes `int()` raise wherever it stands |
| PythonInt.PyIntRejectsSeparator | app.py:34 | one of the ASCII separators 0x1C to 0x1F anywhere in the text makes `int()` raise, since `int()` does not skip them |
| PythonInt.ExampleSeparatorRejected | app.py:34 | "\x1c5" raises |
| PythonInt.PyIntEmpty | app.py:34 | `int("")` raises |
| PythonInt.PyIntGroupSeparator | app.py:34 | one underscore between two runs of digits is read over: `int(a + "_" + b)` is the number `a + b` spells |
| PythonInt.PyIntDoubleUnderscore | app.py:34 | two underscores in a row make `int()` raise wherever they stand |
| PythonInt.ExampleDoubleUnderscore | app.py:34 | "1__0" raises |
| PythonInt.ExampleLetters | app.py:115 | "mp" raises |
| PythonInt.StripStart | app.py:34 | the stripped text is a suffix, starting with no white space, and only white space was removed |
| PythonInt.StripOffset | app.py:34 | stripping removes only the white space `int()` skips at the ends: every other character survives, shifted by one offset |
| PythonInt.StripEnd | app.py:34 | the stripped text is a prefix, ending with no white space, and only white space was removed |
| PythonInt.IsPySpace | app.py:34 | the white space `int()` skips: below 128 exactly tab to carriage return and space, so not the separators 0x1C to 0x1F; no white-space character is a digit, an underscore or a sign |
| PythonInt.Strip | app.py:34 | the text with that white space removed at both ends, no longer than the input, starting and ending with no white space; StripOffset states that only white space is removed |
| PythonInt.PyInt | app.py:34 | `int(s)` on a str: strip, then an optional sign and digits grouped by single underscores, anything else raising; stated by PyIntOfDigits, PyIntOfNegated, PyIntGroupSeparator, PyIntRejects, PyIntRejectsSeparator, PyIntDoubleUnderscore and PyIntEmpty |
| Json.AssignKeys | app.py:30 | `d[key] = v` keeps the key order when the key exists and appends the member last when it does not |
| Json.AssignLookup | app.py:30 | after `d[key] = v` the key reads `v` and every other key reads what it read before |
| Json.Assign | app.py:30 | `d[key] = value` on a dict: at most one member is added; AssignKeys and AssignLookup state where it goes and what every key then reads |
| Json.GetOr | app.py:102 | `d.get(key, default)`: the member's value when present, the default otherwise |
| Json.Contains | app.py:243 | Python `in`: list membership, dict key, substring; any other container type raises |
| Json.IsSubstring | app.py:243 | Python `needle in s` on two strings; IsSubstringOccurs states it holds exactly when the needle occurs at some index of s |
| Json.IsSubstringOccurs | app.py:243 | the substring test is true exactly when the needle occurs at some index of the text, proved by induction over the text |
| Json.StrOrNull | app.py:80-82 | a missing file's content is null; the value is truthy exactly when the JavaScript text would be |
| Json.PyTruthy | app.py:46 | Python truthiness: a string is truthy exactly when it is non-empty, as in JavaScript, and None is falsy |
| FileSystem.ReadFileContent | app.py:12-17 | None exactly for a missing path, the text of a file, and an exception exactly for a directory that is not also a file |
| FileSystem.ReadRaisesAtDir | app.py:12-17 | on a file system where no path is both a file and a directory, reading raises exactly at a directory |
| FileSystem.LoadJson | app.py:26 | `json.loads` raises exactly when the text does not decode |
| FileSystem.SubdirNames | app.py:113 | the listed names that are directories, in listing order |
| FileSystem.ReadEach | app.py:72-84 | the read-and-skip loop: one value per kept name, in order, stopping at the first read that raises; ReadEachShape and ReadEachRaiseStays state both |
| FileSystem.ReadEachShape | app.py:72-84 | when the loop finishes, it holds one value per kept name, and value i is what reading kept name i gives |
| FileSystem.ReadEachRaiseStays | app.py:72-84 | once a read has raised, the whole loop raises |
| Lex.LessTotal | app.py:73 | Python's string order is total |
| Lex.LessTransitive | app.py:73 | and transitive |
| Lex.Less | app.py:73 | Python's `<` on str: character by character, a proper prefix first; LessTotal and LessTransitive state that it is a strict total order |
| Lex.LexExample | app.py:73 | the order is by characters, not numbers: "10" before "2", a prefix before its extension, "a" before "b" |
| Lex.SortStrings | app.py:73 | `sorted` of a list of names; SortStringsPermutes and SortStringsSorts state that it is the ascending permutation |
| Lex.SortStringsPermutes | app.py:73 | `sorted` keeps every name, as often as it occurred |
| Lex.SortStringsSorts | app.py:73 | `sorted` leaves names in ascending order |
| Lex.Filter | app.py:194 | a list comprehension keeps exactly the names satisfying its test |
| Lex.FilterSorted | app.py:194 | filtering a sorted list keeps it sorted |
| ServerLists.CollectProblems | app.py:29-31 | the loop gives the index members' objects, each with its key assigned to "id", or fails when a member is not an object |
| ServerLists.ProblemEntriesFail | app.py:29-31 | the loop fails exactly when some index member is not an object |
| ServerLists.ProblemEntriesShape | app.py:29-31 | entry i is member i's object with "id" set to its key and every other member unchanged |
| ServerLists.GetProblems | app.py:19-35 | `get_problems` as a sequence of steps gives the specified reply |
| ServerLists.ProblemsNotFound | app.py:22-25 | a 404 exactly when the index file is missing |
| ServerLists.ProblemsOrdered | app.py:28-35 | when every id has a key: a 200 listing every entry as often as it was built, keys non-increasing, equal keys in index order, entry i carrying the key of member i |
| ServerLists.NumberedIdKey | app.py:34 | an id such as "P11" (one character, then digits) has as key the number after its first character |
| ServerLists.IdKey | app.py:34 | the sort key `int(id[1:])`, None where `int()` raises; NumberedIdKey, ShortIdHasNoKey and LetterIdHasNoKey state its cases |
| ServerLists.EntryKey | app.py:34 | the key of an entry: IdKey of its string "id", None for a non-object, a missing id or a non-string id; SortById states that a None key makes the sort raise |
| ServerLists.ShortIdHasNoKey | app.py:34 | an id of at most one character has no key, since `int("")` raises |
| ServerLists.LetterIdHasNoKey | app.py:115 | a lower-case letter anywhere after the first character leaves the id without a key |
| ServerLists.SortById | app.py:34 | the sort raises exactly when some entry has no key: a non-object, a missing or non-string id, or an id `int()` rejects |
| ServerLists.SortByIdOrders | app.py:34 | when every entry has a key: the same entries as often, keys non-increasing, entries with equal keys in input order |
| ServerLists.ProblemEntryKeys | app.py:29-34 | entry i carries the key of index member i |
| ServerLists.ProblemEntries | app.py:28-31 | the entries the index loop builds; ProblemEntriesFail, ProblemEntriesShape and ProblemEntryKeys state when it fails and what entry i is |
| ServerLists.EntryFor | app.py:29-30 | one index member with `details["id"] = problem_id` applied; EntryForLookup states what it holds |
| ServerLists.EntryForLookup | app.py:30 | the entry's "id" reads as the member's key, and every other key reads as in the member |
| ServerLists.ProblemsReply | app.py:19-35 | the reply of `get_problems`; ProblemsNotFound, ProblemsReplyOfEntries, ProblemsRaiseOnBadId and ProblemsOrdered state its 404, its 500 and its ordered 200 |
| ServerLists.ProblemsReplyOfEntries | app.py:29-35 | for an index object whose entries build, a 500 exactly when some entry has no key, otherwise the sorted entries |
| ServerLists.ProblemsRaiseOnBadId | app.py:29-35 | for an index object of objects, a 500 exactly when some problem id has no key |
| ServerLists.SortNames | app.py:115 | sorting the names raises exactly when some name has no key |
| ServerLists.SortNamesOrders | app.py:115 | when every name has a key: the same names as often, keys non-increasing |
| ServerLists.GetSolutions | app.py:106-116 | 404 exactly without the solutions directory; otherwise a 500 exactly when some subdirectory name has no key, and else the subdirectories sorted by key, largest first |
| ServerLists.SolutionsOrdered | app.py:113-116 | when every subdirectory name has a key: exactly the subdirectories, each as often as listed, keys non-increasing |
| ServerLists.SolutionsLetterFolder | app.py:113-116 | a subdirectory named like "tmp" turns the reply into a 500 |
| ServerLists.SortContests | app.py:125-127 | a list is sorted as SortById sorts it; an empty dict or string gives []; a value comes back exactly in those cases |
| ServerLists.GetContests | app.py:118-128 | 404 exactly without the index; a 200 body is the sorted index; for a decodable index, a 500 exactly when the sort raises |
| ServerLists.ContestsOrdered | app.py:127 | when every contest has a key: every contest as often, keys non-increasing, ties in index order |
| ServerLists.ContestShortIdRaises | app.py:127 | a contest with a one-character id such as "C" makes the sort raise |
| ServerDetails.Pair | app.py:141 | the pair names its path exactly when the content is truthy |
| ServerDetails.ContentWithPath | app.py:137-141 | raises exactly for a directory or undecodable non-empty JSON; a missing file gives null content and path; otherwise the text, or what it decodes to |
| ServerDetails.TextSectionPairing | app.py:44-46 | a text section names its file exactly when the file exists and is non-empty, and has null content exactly when it is missing |
| ServerDetails.MetaSection | app.py:59-60 | raises exactly when meta.json is a directory or its non-empty text does not decode; otherwise the meta member always names meta.json, and has {} as content when that file is missing or empty |
| ServerDetails.ReadSamples | app.py:70-84 | the sample loop gives the specified list or raises |
| ServerDetails.SamplesOf | app.py:70-84 | the samples list, [] without a samples directory; SamplesInOrder states one sample per subdirectory in ascending name order |
| ServerDetails.SampleJson | app.py:76-83 | one sample object: it raises exactly when one of the three reads raises, and otherwise has the members input, output and description in that order, each the file's text or null |
| ServerDetails.SamplesFrom | app.py:73-83 | the samples read from the folders among the names, in name order, files skipped; ReadEachShape and SamplesInOrder state its length and elements |
| ServerDetails.SamplesInOrder | app.py:70-84 | one sample per subdirectory of the samples directory, in ascending name order, files ignored |
| ServerDetails.GetProblemDetail | app.py:36-86 | `get_problem_detail` built member by member gives the specified reply |
| ServerDetails.ProblemDetailShape | app.py:39-86 | 404 exactly without the problem folder; 500 exactly when meta.json or a section file is a directory, meta.json does not decode, or reading the samples raises; a 200 body has the eight members in order and meta naming meta.json |
| ServerDetails.ProblemDetailReply | app.py:37-86 | the reply of `get_problem_detail`; ProblemDetailShape states its 404 and the members of its 200 body |
| ServerDetails.SolutionAuthors | app.py:96-102 | [] when meta.json is missing or empty; meta that is not a decodable object raises |
| ServerDetails.SolutionReplyShape | app.py:88-104 | 404 exactly without solution.md; 500 exactly when solution.md is a directory, or when it exists and the problem's meta.json is a directory or has non-empty text that does not decode to an object; a 200 body carries its text, its path and the meta's authors |
| ServerDetails.SolutionReply | app.py:88-104 | the reply of `get_solution`; SolutionReplyShape and SolutionAuthors state its 404, its 500, its body and its authors |
| ServerDetails.GetContestDetail | app.py:130-160 | `get_contest_detail` built member by member gives the specified reply |
| ServerDetails.ContestDetailShape | app.py:130-160 | 404 exactly without the contest folder; 500 exactly when the folder exists and one of its five files is a directory or one of meta.json, leaderboard.json and participants.json has non-empty text that does not decode, so every other existing folder gets the bundle; a 200 body has the six members in order, no "rules" member, and every section pairs path with truthy content |
| ServerDetails.ContestDetailReply | app.py:130-160 | the reply of `get_contest_detail`; ContestDetailShape states its 404, its 500 and the members of its 200 body |
| ServerTestcases.Stem | app.py:196 | `os.path.splitext` of an ".in" name: the name without ".in", or the whole name when only dots precede the extension |
| ServerTestcases.StemExamples | app.py:196 | "1.in" gives "1", "a.b.in" "a.b", while ".in" and "..in" keep their names |
| ServerTestcases.FolderCase | app.py:180-191 | a folder's case carries "<type>/<folder>", input.md and output.md, and the folder path |
| ServerTestcases.PairCase | app.py:196-209 | a pair's case carries "<type>/<stem>", both file names and the directory path |
| ServerTestcases.SortedInFiles | app.py:194 | exactly the listed ".in" names |
| ServerTestcases.ReadFolderCases | app.py:179-191 | the folder loop gives the specified cases or raises |
| ServerTestcases.ReadFlatCases | app.py:194-209 | the flat loop gives the specified cases or raises |
| ServerTestcases.ReadCasesFromDir | app.py:169-210 | [] without the directory; the folder layout when any entry is a folder, the flat layout otherwise |
| ServerTestcases.FolderCasesShape | app.py:179-191 | case i comes from the i-th folder of the listing |
| ServerTestcases.FolderCases | app.py:179-191 | the cases of the folder layout, one per subdirectory among the names, in name order; FolderCasesShape states case i |
| ServerTestcases.Paired | app.py:197-199 | exactly the ".in" names whose ".out" partner exists |
| ServerTestcases.FlatCasesShape | app.py:194-209 | case i comes from the i-th paired ".in" file |
| ServerTestcases.FlatCases | app.py:194-209 | the cases of the flat layout, one per ".in" file whose ".out" partner exists, in name order; FlatCasesShape states case i |
| ServerTestcases.CasesLayout | app.py:175-209 | with a folder: one case per folder in ascending order, files ignored; without: one case per paired ".in" file in ascending order, unpaired files ignored |
| ServerTestcases.CasesOf | app.py:169-210 | the cases `_read_cases_from_dir` returns; CasesLayout, FolderCasesShape and FlatCasesShape state the folder and flat layouts |
| ServerTestcases.CasesJson | app.py:184-191 | one JSON object per case, in order |
| ServerTestcases.CaseJson | app.py:184-191 | one case object with the members name, input, output, input_file, output_file and absolute_path in that order, carrying the case's name, texts (null when missing) and path |
| ServerTestcases.TestcasesReplyShape | app.py:162-220 | 404 exactly without the problem folder; 500 exactly when reading the samples or the test cases raises; otherwise a body with both collections as JSON, samples first |
| ServerTestcases.GetTestcases | app.py:162-220 | `get_testcases` gives the specified reply |
| ServerTestcases.TestcasesReply | app.py:162-220 | the reply of `get_testcases`, computed by GetTestcases; TestcasesReplyShape states its 404, its 500 and its body, CaseNamesPrefixed the names the cases carry |
| ServerTestcases.CaseNamesPrefixed | app.py:185 | every case name starts with "<type>/" |
| ServerTestcases.ViewerKeepsServerOrder | app/src/components/TestCasesViewer/index.js:25-29 | the viewer's sort leaves every collection the server sends in the server's order |
| ServerContests.Elements | app.py:231 | iterating the index visits the list's items; an empty dict or string visits nothing; other values raise |
| ServerContests.InContest | app.py:233-244 | a summary is kept exactly when its id is a non-empty string and that contest's meta.json is non-empty, decodes to an object and lists the problem under "problems"; an idless summary is skipped; it raises exactly for a non-object summary, a truthy id that is not a string, or a meta.json that is a directory, does not decode, is not an object or has a "problems" `in` cannot search |
| ServerContests.GetProblemContests | app.py:223-246 | the loop gives the specified reply |
| ServerContests.ProblemContestsReply | app.py:223-246 | the reply of `get_problem_contests`, computed by GetProblemContests; FoundInFilters states which summaries it lists |
| ServerContests.NoIndexNoContests | app.py:226-229 | without a contest index the reply is a 200 with the empty list |
| ServerContests.KeepWhere | app.py:232-244 | the loop keeping what a raising test accepts; KeepWhereRaises, KeepWhereOrdered, KeepWhereCounts and KeepWhereFilters state that it is the filter |
| ServerContests.FoundIn | app.py:232-244 | the summaries whose contest lists the problem; FoundInFilters, RepeatedSummaryKept and IdlessSummariesSkipped state which are kept |
| ServerContests.KeepWhereFilters | app.py:232-244 | a loop that appends what a raising test keeps fails exactly when some test raises, and otherwise gives an in-order subsequence holding each passing element exactly as often as the input does and no other |
| ServerContests.FoundInFilters | app.py:232-244 | the answer is an in-order subsequence of the index holding every kept summary as often as the index does and nothing else; any raising summary fails the request |
| ServerContests.ListedContestKept | app.py:241-244 | a summary whose contest's meta.json lists the problem is in the answer, as often as the index holds it |
| ServerContests.KeepWhereRaises | app.py:234-244 | the loop fails exactly when the check of some summary raises |
| ServerContests.KeepWhereStep | app.py:234-244 | after a successful step the last element was appended exactly when its check kept it |
| ServerContests.KeepWhereOrdered | app.py:234-244 | what a successful loop keeps is an in-order subsequence of the index |
| ServerContests.KeepWhereCounts | app.py:234-244 | a successful loop keeps every occurrence of a summary whose check passes and nothing else |
| ServerContests.KeepWhereAppendKept | app.py:244 | an element that passes is appended after what was kept before it |
| ServerContests.RepeatedSummaryKept | app.py:234-244 | an index listing a kept summary twice gives it twice in the answer |
| ServerContests.IdlessSummariesSkipped | app.py:234-236 | summaries without an id contribute nothing |

## Left out

- Networking and React scheduling are not modelled. Each request is an outcome handed to its handler, in the order the handler awaits it. Cleanup and stale responses are not modelled, as the effects have no guard.
- The submit, submission-list and submission-detail endpoints have no route in app.py. The client models take their outcomes as given, and no server behaviour is invented for them.
- TestCasesViewer.SortCases: requires every key to be numeric or every key NaN, because with mixed keys the comparator is inconsistent and ECMA-262 leaves the order implementation-defined. The same precondition is on TestCasesViewer.SortCollection, TestCasesViewer.Viewer.FetchTestCases and TestCasesViewer.Mount.
- The in-place sort stands for `Array.prototype.sort`. Only its result is claimed, not the number or order of comparator calls the engine makes.
- SubmissionResult.Lower: lower-cases ASCII letters only, without Unicode case mapping.
- JsParseInt.ParseDigits: gives the exact integer the digits spell. JavaScript's `parseInt` gives a float64, which is exact only below 2^53 and is Infinity beyond about 309 digits; that rounding is not modelled.
- JsParseInt.CaseKeyOfLeadingDigits: states the exact value of the digit run, so float64 rounding above 2^53 is not modelled.
- JsParseInt.CaseKeyOfNumberedName: states the key n for every n, while JavaScript rounds n above 2^53.
- TestCasesViewer.Compare: subtracts exact integers, so the JavaScript case of two Infinity keys, whose difference NaN is read as 0, is not modelled.
- PythonInt.PyInt: only ASCII digits count as digits. Python also accepts the other Unicode decimal digits, and recent versions refuse texts of more than 4300 digits; neither is modelled.
- Dates are left out. `new Date(...)`, `toLocaleString` and NaN dates (ContestList, ContestDetail start and end times, submission timestamps) are not modelled; ContestList.GetContestStatus is stated over integer timestamps.
- Floating-point JSON numbers and duplicate keys in one JSON object are left out; an object's keys are taken to be distinct.
- The order of members in the JSON text Flask sends is not modelled; the client reads members by name.
- Path handling is simplified:
  - `os.path.join` with an absolute component is not modelled: an id starting with "/" is joined like any other.
  - Listing entries are taken to contain no "/".
  - File-system errors other than opening a directory are not modelled: permissions, encodings, races.
- Client payloads are records whose text fields are optional strings. A member of another JSON type in a place the page reads as text is not modelled.
- A 200 body that itself carries an `error` member is not modelled; only a 404 stores the not-found marker the detail pages test for.
- SubmissionForm.Form: the shown result belongs to the hosting page, which passes its setter to the form. The model keeps it as a field of the form.
- The textarea's `required` attribute is modelled as BeginSubmit doing nothing for empty code.
- ContestDetail.Mount: takes at most one click on the problems header. Any number of clicks is covered by ToggleProblemsCollapse, one call at a time.
- ProblemList has no logic and its source is not valid JSX. CopyButton, MarkdownRenderer, Loading and the static pages are library wrappers or markup. Flask, CORS, `app.run` and the route table are not part of this model.
- Clipboard, toasts, local storage other than the theme entry, and `document.title` as a browser side effect are left out; titles are returned as values.

## Findings

| source | as written | input that shows it | evidently intended | confidence | as-written member | corrected member |
|---|---|---|---|---|---|---|
| app/src/components/ContestDetail/index.js:78-79 | the page reads `contest.rules.file_path`, but the bundle built at app.py:151-158 has no `rules` member, so every contest page throws while rendering | any contest folder, for example one with meta.json, contest.md and theory.md: the reply has members meta, contest, leaderboard, participants, theory and absolute_path | show the Rules section only when the bundle has one | not executed | ContestDetail.ServerBundleCrashes | ContestDetail.RenderPageGuarded |
