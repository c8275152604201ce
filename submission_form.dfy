/** The submission form of a problem: it holds the code and the language,
    refuses to start a submission while one is in flight, and stores the
    outcome as the result shown beside it. The result slot belongs to the
    page that hosts the form; the model keeps it on the form. */
module SubmissionForm {
  import opened Common
  import opened SubmissionResult

  const SubmitError := "An error occurred during submission."

  /** The POST the form issues: its URL and the JSON body `{code, language}`. */
  datatype SubmitRequest = SubmitRequest(url: string, code: string, language: string)

  /** The result stored for a non-ok response and for a thrown error alike. */
  function FailureResult(): (r: ResultRecord)
    ensures r.error == Some(SubmitError) && r.results.None?
  {
    ResultRecord(Some(SubmitError), None)
  }

  /** The languages the select offers. */
  predicate KnownLanguage(language: string) {
    language == "python" || language == "c++"
  }

  class Form {
    const problemId: string
    var code: string
    var language: string
    var isSubmitting: bool
    var result: Option<ResultRecord>

    /** The language is always one the select offers, so every request
        names one. */
    ghost predicate Valid()
      reads this
    {
      KnownLanguage(language)
    }

    constructor (problemId: string)
      ensures this.problemId == problemId
      ensures code == "" && language == "python" && !isSubmitting && result == None
      ensures Valid()
    {
      this.problemId := problemId;
      code := "";
      language := "python";
      isSubmitting := false;
      result := None;
    }

    method SetCode(text: string)
      requires Valid()
      modifies this
      ensures code == text && Valid()
      ensures language == old(language) && isSubmitting == old(isSubmitting) && result == old(result)
    {
      code := text;
    }

    method SetLanguage(choice: string)
      requires KnownLanguage(choice)
      modifies this
      ensures language == choice && Valid()
      ensures code == old(code) && isSubmitting == old(isSubmitting) && result == old(result)
    {
      language := choice;
    }

    /** The button is disabled during a submission. */
    function ButtonDisabled(): (d: bool)
      reads this
      ensures d <==> isSubmitting
    {
      isSubmitting
    }

    function ButtonLabel(): (text: string)
      reads this
      ensures isSubmitting ==> text == "Submitting..."
      ensures !isSubmitting ==> text == "Submit"
    {
      if isSubmitting then "Submitting..." else "Submit"
    }

    /** The first half of `handleSubmit`: a form submission is possible only
        while the button is enabled and the required textarea is non-empty;
        it then marks the form as submitting, clears the shown result and
        issues the request with exactly the current code and language. */
    method BeginSubmit() returns (request: Option<SubmitRequest>)
      requires Valid()
      modifies this
      ensures Valid()
      ensures request.Some? ==> KnownLanguage(request.value.language)
      ensures old(isSubmitting) || old(code) == "" ==>
        request == None && isSubmitting == old(isSubmitting) && result == old(result)
      ensures !old(isSubmitting) && old(code) != "" ==>
        && request == Some(SubmitRequest("http://localhost:5001/problems/" + problemId + "/submit", code, language))
        && isSubmitting && result == None
      ensures code == old(code) && language == old(language)
    {
      if isSubmitting || code == "" {
        return None;
      }
      isSubmitting := true;
      result := None;
      request := Some(SubmitRequest("http://localhost:5001/problems/" + problemId + "/submit", code, language));
    }

    /** The second half: an ok response stores its body as the result, any
        failure the fixed error record; the `finally` step then ends the
        submission. */
    method CompleteSubmit(response: Outcome<ResultRecord>)
      requires isSubmitting && Valid()
      modifies this
      ensures Valid()
      ensures response.Ok? ==> result == Some(response.payload)
      ensures !response.Ok? ==> result == Some(FailureResult())
      ensures !isSubmitting
      ensures code == old(code) && language == old(language)
    {
      match response {
        case Ok(body) => result := Some(body);
        case _ => result := Some(FailureResult());
      }
      isSubmitting := false;
    }
  }

  /** One complete submission from a fresh form: typing the code, choosing the
      language and submitting. The request carries the code and language the
      user entered; afterwards the form is idle again and the panel shows the
      server's result on success and the fixed error on any failure, with no
      status code in it. */
  method SubmitOnce(problemId: string, text: string, choice: string, response: Outcome<ResultRecord>)
    returns (request: Option<SubmitRequest>, panel: ResultPanel, submitting: bool)
    requires KnownLanguage(choice)
    ensures text == "" ==> request == None && panel == NoPanel
    ensures text != "" ==> request.Some? && request.value.code == text && request.value.language == choice
    ensures text != "" && response.Ok? ==> panel == RenderResult(Some(response.payload))
    ensures text != "" && !response.Ok? ==> panel == ErrorPanel(SubmitError)
    ensures !submitting
  {
    var form := new Form(problemId);
    form.SetCode(text);
    form.SetLanguage(choice);
    request := form.BeginSubmit();
    if request.Some? {
      form.CompleteSubmit(response);
    }
    panel := RenderResult(form.result);
    submitting := form.isSubmitting;
  }

  /** A second submit while one is in flight changes nothing. */
  method DoubleSubmit(problemId: string, text: string) returns (first: Option<SubmitRequest>, second: Option<SubmitRequest>)
    ensures text != "" ==> first.Some? && second.None?
  {
    var form := new Form(problemId);
    form.SetCode(text);
    first := form.BeginSubmit();
    second := form.BeginSubmit();
  }
}
