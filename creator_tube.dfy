/**
 * The decision rules of the creator-tube page: the form schema, the status
 * of each history record, the header label and the new-parameters panel,
 * and the state the submit handler leaves behind.
 */
module CreatorTube {
  import opened Js
  import opened Actions

  // ---------------------------------------------------------------------
  // Form schema.

  const PromptTooShortMessage: string := "El prompt debe tener al menos 10 caracteres."
  const BelowOneMessage: string := "Debe ser al menos 1."
  const AboveTenMessage: string := "No puede exceder 10."

  /** The issues the form schema reports, in the order it checks them. */
  datatype FormIssue =
    | PromptTooShort
    | NotANumber
    | NotAnInteger
    | BelowOne
    | AboveTen

  /** The custom message of an issue; the other two use the schema library's default text. */
  function IssueMessage(issue: FormIssue): Option<string> {
    match issue
    case PromptTooShort => Some(PromptTooShortMessage)
    case BelowOne => Some(BelowOneMessage)
    case AboveTen => Some(AboveTenMessage)
    case _ => None
  }

  datatype FormValues = FormValues(prompt: string, maxIterations: int)

  /**
   * `formSchema`. `coerced` is `Number(input)` for the iterations field,
   * `None` standing for NaN. Every failing check is reported.
   */
  function ValidateForm(prompt: string, coerced: Option<real>): (r: Result<FormValues, seq<FormIssue>>)
    ensures r.Ok? <==>
      |prompt| >= 10 && coerced.Some? && IsInteger(coerced.value) && 1.0 <= coerced.value <= 10.0
    ensures r.Ok? ==>
      r.value.prompt == prompt && r.value.maxIterations as real == coerced.value && 1 <= r.value.maxIterations <= 10
    ensures r.Err? ==>
      && (PromptTooShort in r.error <==> |prompt| < 10)
      && (NotANumber in r.error <==> coerced.None?)
      && (NotAnInteger in r.error <==> coerced.Some? && !IsInteger(coerced.value))
      && (BelowOne in r.error <==> coerced.Some? && coerced.value < 1.0)
      && (AboveTen in r.error <==> coerced.Some? && coerced.value > 10.0)
  {
    var promptIssues := if |prompt| < 10 then [PromptTooShort] else [];
    var numberIssues :=
      match coerced
      case None => [NotANumber]
      case Some(n) =>
        (if IsInteger(n) then [] else [NotAnInteger])
        + (if n < 1.0 then [BelowOne] else [])
        + (if n > 10.0 then [AboveTen] else []);
    var issues := promptIssues + numberIssues;
    if issues == [] then Ok(FormValues(prompt, coerced.value.Floor)) else Err(issues)
  }

  // ---------------------------------------------------------------------
  // Status of each record, header labels, new-parameters panel.

  datatype Status = Rerunning | Completed | StoppedAtLimit

  /** `getStatusIcon(result, index, total)`. */
  function StatusOf(result: IterationResult, index: int, total: int): Status {
    if index == total - 1 then
      if !result.results.shouldRerun then Completed else StoppedAtLimit
    else
      Rerunning
  }

  /** The "Completado" header label: shown exactly for a record whose icon is the completed one. */
  predicate CompletedLabel(result: IterationResult, index: int, total: int): (shown: bool)
    ensures shown <==> StatusOf(result, index, total) == Completed
  {
    index == total - 1 && !result.results.shouldRerun
  }

  /** The "Detenido (Máx. Iteraciones)" header label: shown exactly for a record whose icon is the stopped one. */
  predicate StoppedLabel(result: IterationResult, index: int, total: int): (shown: bool)
    ensures shown <==> StatusOf(result, index, total) == StoppedAtLimit
  {
    index == total - 1 && result.results.shouldRerun
  }

  /** The "Re-ejecutando..." header label: for a displayed record, shown exactly when its icon is the rerunning one. */
  predicate RerunningLabel(index: int, total: int): (shown: bool)
    ensures 0 <= index < total ==> forall result :: (shown <==> StatusOf(result, index, total) == Rerunning)
  {
    index < total - 1
  }

  /**
   * Whether the "new parameters for the next iteration" panel is shown:
   * exactly for a record from which the loop goes on and that carries the
   * rerunning label.
   */
  predicate ShowsNewParameters(result: IterationResult, index: int, total: int): (shown: bool)
    ensures shown <==> Continues(result.results) && RerunningLabel(index, total)
  {
    result.results.shouldRerun && TruthyText(result.results.newParameters) && index < total - 1
  }

  /** Exactly one header label applies to every displayed record. */
  lemma ExactlyOneLabel(result: IterationResult, index: int, total: int)
    requires 0 <= index < total
    ensures (if CompletedLabel(result, index, total) then 1 else 0)
          + (if StoppedLabel(result, index, total) then 1 else 0)
          + (if RerunningLabel(index, total) then 1 else 0) == 1
  {
  }

  /**
   * On a history the loop returns: every record but the last is shown as
   * rerunning with its new-parameters panel; the last has no panel and is
   * shown completed exactly when its decision did not ask for a rerun. The
   * icon clauses follow from `StatusOf` alone, for any sequence; the panel
   * clause is the one that depends on the loop, which only goes on past a
   * record that continues.
   */
  lemma HistoryDisplay(env: Automation, prompt: string, maxIterations: int)
    requires AutomationRun(env, prompt, maxIterations).Ok?
    ensures var h := AutomationRun(env, prompt, maxIterations).value;
      && (forall k :: 0 <= k < |h| ==> (StatusOf(h[k], k, |h|) == Rerunning <==> k < |h| - 1))
      && (forall k :: 0 <= k < |h| ==> (ShowsNewParameters(h[k], k, |h|) <==> k < |h| - 1))
      && (|h| > 0 ==> (StatusOf(h[|h| - 1], |h| - 1, |h|) == Completed <==> !h[|h| - 1].results.shouldRerun))
  {
    RunIsThreaded(env, prompt, maxIterations);
  }

  /**
   * The last record is labelled as stopped at the limit whenever it asks for
   * a rerun, even when the loop stopped early because no new parameters came:
   * here the bound is 3 and the history has one record.
   */
  lemma LimitLabelOnEarlyStop(prompt: string)
    ensures var env := Automation(
              (input: AutomationInput) => Ok(AutomationOutput(true, None, "retry", None)),
              (p: Colab.NotebookParams) => "{}",
              (out: AutomationOutput) => "{}");
      && AutomationRun(env, prompt, 3).Ok?
      && |AutomationRun(env, prompt, 3).value| == 1
      && StatusOf(AutomationRun(env, prompt, 3).value[0], 0, 1) == StoppedAtLimit
  {
    var env := Automation(
      (input: AutomationInput) => Ok(AutomationOutput(true, None, "retry", None)),
      (p: Colab.NotebookParams) => "{}",
      (out: AutomationOutput) => "{}");
    var empty: seq<IterationResult> := [];
    assert |empty| == 0;
  }

  // ---------------------------------------------------------------------
  // Submit handler.

  /** The video to show after a run: the last record's URL, when it is truthy. */
  function FinalVideoUrl(h: seq<IterationResult>): (url: Option<string>)
    ensures url.Some? <==> |h| > 0 && TruthyText(h[|h| - 1].results.videoUrl)
    ensures url.Some? ==> url == h[|h| - 1].results.videoUrl
  {
    if |h| > 0 && TruthyText(h[|h| - 1].results.videoUrl) then h[|h| - 1].results.videoUrl else None
  }

  /** The toast the handler raises. */
  datatype Toast =
    | VideoReady
    | Finished(iterations: int)
    | Failed(description: string)

  /** The page's state: the loading flag, the history shown and the final video. */
  class Page {
    var isLoading: bool
    var results: seq<IterationResult>
    var finalVideoUrl: Option<string>

    constructor ()
      ensures !isLoading && results == [] && finalVideoUrl == None
    {
      isLoading := false;
      results := [];
      finalVideoUrl := None;
    }

    /**
     * `onSubmit(values)`: clear the page, run the loop, then show its history
     * and final video, or only the error when the loop rejects.
     */
    method OnSubmit(env: Automation, values: FormValues) returns (toast: Toast)
      modifies this
      ensures !isLoading
      ensures match AutomationRun(env, values.prompt, values.maxIterations)
        case Ok(h) =>
          && results == h
          && finalVideoUrl == FinalVideoUrl(h)
          && toast == (if finalVideoUrl.Some? then VideoReady else Finished(|h|))
        case Err(e) =>
          results == [] && finalVideoUrl == None && toast == Failed(e)
    {
      isLoading := true;
      results := [];
      finalVideoUrl := None;
      var finalResults;
      ghost var calls;
      finalResults, calls := RunAutomationLoop(env, values.prompt, values.maxIterations);
      match finalResults {
        case Ok(h) =>
          results := h;
          if |h| > 0 && TruthyText(h[|h| - 1].results.videoUrl) {
            finalVideoUrl := h[|h| - 1].results.videoUrl;
            toast := VideoReady;
          } else {
            toast := Finished(|h|);
          }
        case Err(e) =>
          toast := Failed(e);
      }
      isLoading := false;
    }
  }

  /**
   * A submission the form accepts has a bound of at least 1, so a run that
   * resolves shows at least one record, and the final video is the last
   * record's URL when that is truthy.
   */
  lemma AcceptedSubmissionShowsHistory(env: Automation, prompt: string, coerced: Option<real>)
    requires ValidateForm(prompt, coerced).Ok?
    requires AutomationRun(env, prompt, ValidateForm(prompt, coerced).value.maxIterations).Ok?
    ensures var values := ValidateForm(prompt, coerced).value;
      var h := AutomationRun(env, prompt, values.maxIterations).value;
      && 1 <= |h| <= values.maxIterations <= 10
      && (TruthyText(h[|h| - 1].results.videoUrl) ==> FinalVideoUrl(h) == h[|h| - 1].results.videoUrl)
  {
    RunIsThreaded(env, prompt, ValidateForm(prompt, coerced).value.maxIterations);
  }
}
