/**
 * The automation loop: starting from seed parameters, ask the decision
 * function at most `maxIterations` times whether to run again, record one
 * iteration result per call, and thread the proposed parameters and the
 * serialised previous outcome into the next call.
 */
module Actions {
  import opened Js
  import Colab

  /** What the decision function is given on each call. */
  datatype AutomationInput = AutomationInput(
    parameters: string,
    maxIterations: int,
    iterationCount: int,
    previousResults: Option<string>)

  /** What the decision function answers. */
  datatype AutomationOutput = AutomationOutput(
    shouldRerun: bool,
    newParameters: Option<string>,
    reason: string,
    videoUrl: Option<string>)

  /** One entry of the history the loop returns. */
  datatype IterationResult = IterationResult(iteration: int, parameters: string, results: AutomationOutput)

  /**
   * The loop's collaborators. `decide` is the decision function: `Err`
   * means its promise rejects. The two serialisers stand for `JSON.stringify`
   * on a parameter object and on a decision.
   */
  datatype Automation = Automation(
    decide: AutomationInput -> Result<AutomationOutput, string>,
    stringifyParams: Colab.NotebookParams -> string,
    stringifyOutput: AutomationOutput -> string)

  const SeedNegativePrompt: string := "low quality, worst quality, deformed, distorted, disfigured"

  /** The parameter object the first call is seeded with. */
  function SeedParameters(prompt: string): (p: Colab.NotebookParams)
    ensures Colab.Valid(p)
  {
    Colab.NotebookParams(
      prompt, Some(SeedNegativePrompt),
      Colab.DefaultWidth, Colab.DefaultHeight, Colab.DefaultSeed, Colab.DefaultSteps,
      Colab.DefaultCfgScale, Colab.DefaultSampler, Colab.DefaultFrames, Colab.DefaultFps,
      Some(1))
  }

  /** The serialised seed parameters, the `parameters` of the first call. */
  function InitialParameters(env: Automation, prompt: string): string {
    env.stringifyParams(SeedParameters(prompt))
  }

  /**
   * The loop goes on only if a rerun is asked for with truthy new parameters:
   * exactly when a rerun is asked for and the parameters handed on are not empty.
   */
  predicate Continues(out: AutomationOutput): (c: bool)
    ensures c <==> out.shouldRerun && HandedOn(out) != ""
  {
    out.shouldRerun && TruthyText(out.newParameters)
  }

  /**
   * The loop from the state it has after `|done|` passes: the results so far,
   * the current parameters and the carried previous results.
   */
  function Iterate(env: Automation, maxIterations: int, done: seq<IterationResult>,
                   parameters: string, previousResults: Option<string>): (r: Result<seq<IterationResult>, string>)
    ensures r.Ok? ==> done <= r.value
    ensures r.Ok? && |done| <= maxIterations ==> |r.value| <= maxIterations
    ensures r.Ok? && |done| < maxIterations ==> |done| < |r.value|
    decreases maxIterations - |done|
  {
    if |done| >= maxIterations then Ok(done)
    else
      match env.decide(AutomationInput(parameters, maxIterations, |done|, previousResults))
      case Err(e) => Err(e)
      case Ok(out) =>
        var done' := done + [IterationResult(|done| + 1, parameters, out)];
        if Continues(out) then
          Iterate(env, maxIterations, done', out.newParameters.value, Some(env.stringifyOutput(out)))
        else
          Ok(done')
  }

  /** What `runAutomationLoop(prompt, maxIterations)` resolves or rejects with. */
  function AutomationRun(env: Automation, prompt: string, maxIterations: int): (r: Result<seq<IterationResult>, string>)
    ensures r.Ok? && maxIterations <= 0 ==> r.value == []
    ensures r.Ok? && maxIterations >= 1 ==> 1 <= |r.value| <= maxIterations
  {
    Iterate(env, maxIterations, [], InitialParameters(env, prompt), None)
  }

  // ---------------------------------------------------------------------
  // An independent description of the histories a run returns.

  /** The input the call behind record `k` of a history received. */
  function InputAt(env: Automation, maxIterations: int, h: seq<IterationResult>, k: nat): AutomationInput
    requires k < |h|
  {
    AutomationInput(h[k].parameters, maxIterations, k,
                    if k == 0 then None else Some(env.stringifyOutput(h[k - 1].results)))
  }

  /** The parameters a decision hands on to the next call (empty when it proposes none). */
  function HandedOn(out: AutomationOutput): string {
    if out.newParameters.Some? then out.newParameters.value else ""
  }

  /**
   * Record `k` of `h` is numbered `k + 1`, was run with the seed (first
   * record) or with what the previous decision handed on, and holds what the
   * decision function answers to the input that call received.
   */
  ghost predicate RecordFits(env: Automation, prompt: string, maxIterations: int, h: seq<IterationResult>, k: int)
    requires 0 <= k < |h|
  {
    && h[k].iteration == k + 1
    && h[k].parameters == (if k == 0 then InitialParameters(env, prompt) else HandedOn(h[k - 1].results))
    && env.decide(InputAt(env, maxIterations, h, k)) == Ok(h[k].results)
  }

  /**
   * `h` is a correctly threaded history: every record fits, every record but
   * the last continues into the next, the length is within the bound, and a
   * run shorter than the bound ends with an outcome that stops it.
   */
  ghost predicate Threaded(env: Automation, prompt: string, maxIterations: int, h: seq<IterationResult>) {
    && (maxIterations <= 0 ==> h == [])
    && (maxIterations >= 1 ==> 1 <= |h| <= maxIterations)
    && (forall k {:trigger RecordFits(env, prompt, maxIterations, h, k)} ::
          0 <= k < |h| ==> RecordFits(env, prompt, maxIterations, h, k))
    && (forall k :: 0 <= k < |h| - 1 ==> Continues(h[k].results))
    && (0 < |h| < maxIterations ==> !Continues(h[|h| - 1].results))
  }

  /** The loop's state after `|done|` passes, every one of which continued. */
  ghost predicate Progress(env: Automation, prompt: string, maxIterations: int, done: seq<IterationResult>,
                           parameters: string, previousResults: Option<string>) {
    && (done == [] || |done| <= maxIterations)
    && (forall k {:trigger RecordFits(env, prompt, maxIterations, done, k)} ::
          0 <= k < |done| ==> RecordFits(env, prompt, maxIterations, done, k))
    && (forall k :: 0 <= k < |done| ==> Continues(done[k].results))
    && parameters == (if done == [] then InitialParameters(env, prompt) else HandedOn(done[|done| - 1].results))
    && previousResults == (if done == [] then None else Some(env.stringifyOutput(done[|done| - 1].results)))
  }

  /** Appending a record changes neither the inputs nor the fit of the earlier records. */
  lemma AppendKeepsFit(env: Automation, prompt: string, maxIterations: int, h: seq<IterationResult>, x: IterationResult)
    ensures forall k :: 0 <= k < |h| ==> InputAt(env, maxIterations, h + [x], k) == InputAt(env, maxIterations, h, k)
    ensures forall k {:trigger RecordFits(env, prompt, maxIterations, h + [x], k)} :: 0 <= k < |h| ==>
      RecordFits(env, prompt, maxIterations, h + [x], k) == RecordFits(env, prompt, maxIterations, h, k)
  {
    forall k | 0 <= k < |h|
      ensures InputAt(env, maxIterations, h + [x], k) == InputAt(env, maxIterations, h, k)
      ensures RecordFits(env, prompt, maxIterations, h + [x], k) == RecordFits(env, prompt, maxIterations, h, k)
    {
      assert (h + [x])[k] == h[k];
      if k > 0 {
        assert (h + [x])[k - 1] == h[k - 1];
      }
    }
  }

  /** The record the loop appends in a consistent state fits there. */
  lemma AppendedFits(env: Automation, prompt: string, maxIterations: int, done: seq<IterationResult>,
                     parameters: string, previousResults: Option<string>, out: AutomationOutput)
    requires Progress(env, prompt, maxIterations, done, parameters, previousResults)
    requires env.decide(AutomationInput(parameters, maxIterations, |done|, previousResults)) == Ok(out)
    ensures var done' := done + [IterationResult(|done| + 1, parameters, out)];
      && InputAt(env, maxIterations, done', |done|) == AutomationInput(parameters, maxIterations, |done|, previousResults)
      && RecordFits(env, prompt, maxIterations, done', |done|)
  {
    var done' := done + [IterationResult(|done| + 1, parameters, out)];
    if |done| > 0 {
      assert done'[|done| - 1] == done[|done| - 1];
    }
  }

  /** A pass that continues leads from one consistent state to the next. */
  lemma ProgressStep(env: Automation, prompt: string, maxIterations: int, done: seq<IterationResult>,
                     parameters: string, previousResults: Option<string>, out: AutomationOutput)
    requires Progress(env, prompt, maxIterations, done, parameters, previousResults)
    requires |done| < maxIterations
    requires env.decide(AutomationInput(parameters, maxIterations, |done|, previousResults)) == Ok(out)
    requires Continues(out)
    ensures Progress(env, prompt, maxIterations, done + [IterationResult(|done| + 1, parameters, out)],
                     out.newParameters.value, Some(env.stringifyOutput(out)))
  {
    var x := IterationResult(|done| + 1, parameters, out);
    AppendKeepsFit(env, prompt, maxIterations, done, x);
    AppendedFits(env, prompt, maxIterations, done, parameters, previousResults, out);
    var done' := done + [x];
    forall k | 0 <= k < |done'|
      ensures RecordFits(env, prompt, maxIterations, done', k) && Continues(done'[k].results)
    {
      if k < |done| {
        assert done'[k] == done[k];
      }
    }
  }

  /** A pass that stops ends the loop with a threaded history. */
  lemma StopIsThreaded(env: Automation, prompt: string, maxIterations: int, done: seq<IterationResult>,
                       parameters: string, previousResults: Option<string>, out: AutomationOutput)
    requires Progress(env, prompt, maxIterations, done, parameters, previousResults)
    requires |done| < maxIterations
    requires env.decide(AutomationInput(parameters, maxIterations, |done|, previousResults)) == Ok(out)
    requires !Continues(out)
    ensures Threaded(env, prompt, maxIterations, done + [IterationResult(|done| + 1, parameters, out)])
  {
    var x := IterationResult(|done| + 1, parameters, out);
    AppendKeepsFit(env, prompt, maxIterations, done, x);
    AppendedFits(env, prompt, maxIterations, done, parameters, previousResults, out);
    var done' := done + [x];
    forall k | 0 <= k < |done'|
      ensures RecordFits(env, prompt, maxIterations, done', k)
    {
    }
    forall k | 0 <= k < |done'| - 1
      ensures Continues(done'[k].results)
    {
      assert done'[k] == done[k];
    }
  }

  /** Once the budget is spent, the results so far are a threaded history. */
  lemma BudgetSpentIsThreaded(env: Automation, prompt: string, maxIterations: int, done: seq<IterationResult>,
                              parameters: string, previousResults: Option<string>)
    requires Progress(env, prompt, maxIterations, done, parameters, previousResults)
    requires |done| >= maxIterations
    ensures Threaded(env, prompt, maxIterations, done)
  {
  }

  /** Every history the loop returns from a consistent state is threaded and extends that state's results. */
  lemma {:induction false} IterateThreaded(env: Automation, prompt: string, maxIterations: int,
                                           done: seq<IterationResult>, parameters: string,
                                           previousResults: Option<string>, h: seq<IterationResult>)
    requires Progress(env, prompt, maxIterations, done, parameters, previousResults)
    requires Iterate(env, maxIterations, done, parameters, previousResults) == Ok(h)
    ensures Threaded(env, prompt, maxIterations, h)
    ensures done <= h
    decreases maxIterations - |done|
  {
    if |done| >= maxIterations {
      BudgetSpentIsThreaded(env, prompt, maxIterations, done, parameters, previousResults);
    } else {
      var input := AutomationInput(parameters, maxIterations, |done|, previousResults);
      var out := env.decide(input).value;
      var done' := done + [IterationResult(|done| + 1, parameters, out)];
      if Continues(out) {
        ProgressStep(env, prompt, maxIterations, done, parameters, previousResults, out);
        IterateThreaded(env, prompt, maxIterations, done', out.newParameters.value,
                        Some(env.stringifyOutput(out)), h);
      } else {
        StopIsThreaded(env, prompt, maxIterations, done, parameters, previousResults, out);
      }
    }
  }

  /** In a threaded history, the record after a consistent prefix is the one the loop appends next. */
  lemma ThreadedNext(env: Automation, prompt: string, maxIterations: int,
                     done: seq<IterationResult>, parameters: string,
                     previousResults: Option<string>, h: seq<IterationResult>)
    requires Threaded(env, prompt, maxIterations, h)
    requires Progress(env, prompt, maxIterations, done, parameters, previousResults)
    requires done <= h && |done| < |h|
    ensures |done| < maxIterations
    ensures env.decide(AutomationInput(parameters, maxIterations, |done|, previousResults)) == Ok(h[|done|].results)
    ensures done + [IterationResult(|done| + 1, parameters, h[|done|].results)] == h[..|done| + 1]
  {
    var n := |done|;
    assert RecordFits(env, prompt, maxIterations, h, n);
    if n > 0 {
      assert h[n - 1] == done[n - 1];
    }
    assert InputAt(env, maxIterations, h, n) == AutomationInput(parameters, maxIterations, n, previousResults);
    assert h[..n + 1] == h[..n] + [h[n]];
  }

  /** Conversely, the loop returns every threaded history that extends its state's results. */
  lemma {:induction false} ThreadedIterate(env: Automation, prompt: string, maxIterations: int,
                                           done: seq<IterationResult>, parameters: string,
                                           previousResults: Option<string>, h: seq<IterationResult>)
    requires Threaded(env, prompt, maxIterations, h)
    requires Progress(env, prompt, maxIterations, done, parameters, previousResults)
    requires done <= h
    ensures Iterate(env, maxIterations, done, parameters, previousResults) == Ok(h)
    decreases |h| - |done|
  {
    var n := |done|;
    if n == |h| {
      assert done == h;
      assert n >= maxIterations;
    } else {
      ThreadedNext(env, prompt, maxIterations, done, parameters, previousResults, h);
      var out := h[n].results;
      var done' := done + [IterationResult(n + 1, parameters, out)];
      if Continues(out) {
        ProgressStep(env, prompt, maxIterations, done, parameters, previousResults, out);
        ThreadedIterate(env, prompt, maxIterations, done', out.newParameters.value,
                        Some(env.stringifyOutput(out)), h);
      } else {
        assert n + 1 == |h|;
        assert done' == h;
      }
    }
  }

  /** A run that resolves returns a threaded history. */
  lemma RunIsThreaded(env: Automation, prompt: string, maxIterations: int)
    requires AutomationRun(env, prompt, maxIterations).Ok?
    ensures Threaded(env, prompt, maxIterations, AutomationRun(env, prompt, maxIterations).value)
  {
    IterateThreaded(env, prompt, maxIterations, [], InitialParameters(env, prompt), None,
                    AutomationRun(env, prompt, maxIterations).value);
  }

  /** A threaded history is exactly what the run resolves with. */
  lemma ThreadedIsRun(env: Automation, prompt: string, maxIterations: int, h: seq<IterationResult>)
    requires Threaded(env, prompt, maxIterations, h)
    ensures AutomationRun(env, prompt, maxIterations) == Ok(h)
  {
    ThreadedIterate(env, prompt, maxIterations, [], InitialParameters(env, prompt), None, h);
  }

  /** At most one history is threaded for given collaborators, prompt and bound. */
  lemma ThreadedUnique(env: Automation, prompt: string, maxIterations: int, h1: seq<IterationResult>, h2: seq<IterationResult>)
    requires Threaded(env, prompt, maxIterations, h1) && Threaded(env, prompt, maxIterations, h2)
    ensures h1 == h2
  {
    ThreadedIsRun(env, prompt, maxIterations, h1);
    ThreadedIsRun(env, prompt, maxIterations, h2);
  }

  /**
   * The history a resolving run returns, spelled out: records are numbered
   * from 1, the first runs on the seed, each later one runs on the parameters
   * its predecessor proposed and is told that predecessor's serialised
   * outcome, only the last may stop, and it stops unless the bound was hit.
   */
  lemma RunHistory(env: Automation, prompt: string, maxIterations: int, h: seq<IterationResult>)
    requires AutomationRun(env, prompt, maxIterations) == Ok(h)
    ensures && |h| <= (if maxIterations < 0 then 0 else maxIterations)
      && (maxIterations >= 1 ==> |h| >= 1)
      && (forall k :: 0 <= k < |h| ==> h[k].iteration == k + 1)
      && (|h| > 0 ==> h[0].parameters == InitialParameters(env, prompt)
                      && env.decide(AutomationInput(h[0].parameters, maxIterations, 0, None)) == Ok(h[0].results))
      && (forall k {:trigger h[k]} :: 0 < k < |h| ==>
            && h[k - 1].results.shouldRerun
            && h[k - 1].results.newParameters == Some(h[k].parameters)
            && h[k].parameters != ""
            && env.decide(AutomationInput(h[k].parameters, maxIterations, k,
                                          Some(env.stringifyOutput(h[k - 1].results)))) == Ok(h[k].results))
      && (0 < |h| < maxIterations ==> !Continues(h[|h| - 1].results))
  {
    RunIsThreaded(env, prompt, maxIterations);
    forall k | 0 <= k < |h| ensures h[k].iteration == k + 1 {
      assert RecordFits(env, prompt, maxIterations, h, k);
    }
    if |h| > 0 {
      assert RecordFits(env, prompt, maxIterations, h, 0);
    }
    forall k | 0 < k < |h|
      ensures h[k - 1].results.newParameters == Some(h[k].parameters) && h[k].parameters != ""
      ensures env.decide(AutomationInput(h[k].parameters, maxIterations, k,
                                         Some(env.stringifyOutput(h[k - 1].results)))) == Ok(h[k].results)
    {
      assert RecordFits(env, prompt, maxIterations, h, k);
      assert Continues(h[k - 1].results);
    }
  }

  /** If the decision function never rejects, neither does the loop. */
  lemma {:induction false} IterateResolves(env: Automation, maxIterations: int, done: seq<IterationResult>,
                                           parameters: string, previousResults: Option<string>)
    requires forall input :: env.decide(input).Ok?
    ensures Iterate(env, maxIterations, done, parameters, previousResults).Ok?
    decreases maxIterations - |done|
  {
    if |done| < maxIterations {
      var out := env.decide(AutomationInput(parameters, maxIterations, |done|, previousResults)).value;
      if Continues(out) {
        IterateResolves(env, maxIterations, done + [IterationResult(|done| + 1, parameters, out)],
                        out.newParameters.value, Some(env.stringifyOutput(out)));
      }
    }
  }

  /**
   * A rejection of the loop is the rejection of one of its own calls, passed
   * on unchanged: a call given the loop's bound and an iteration count between
   * the passes already made and the bound.
   */
  lemma {:induction false} IterateRejects(env: Automation, maxIterations: int, done: seq<IterationResult>,
                                          parameters: string, previousResults: Option<string>)
    requires Iterate(env, maxIterations, done, parameters, previousResults).Err?
    ensures exists input: AutomationInput ::
      && input.maxIterations == maxIterations
      && |done| <= input.iterationCount < maxIterations
      && env.decide(input) == Err(Iterate(env, maxIterations, done, parameters, previousResults).error)
    decreases maxIterations - |done|
  {
    var input := AutomationInput(parameters, maxIterations, |done|, previousResults);
    if env.decide(input).Err? {
      assert input.maxIterations == maxIterations && |done| <= input.iterationCount < maxIterations;
    } else {
      var out := env.decide(input).value;
      IterateRejects(env, maxIterations, done + [IterationResult(|done| + 1, parameters, out)],
                     out.newParameters.value, Some(env.stringifyOutput(out)));
    }
  }

  /** If every decision asks to go on with new parameters, the run uses its whole budget and its last record still asks to rerun. */
  lemma ExhaustsBudget(env: Automation, prompt: string, maxIterations: int)
    requires maxIterations >= 1
    requires forall input :: env.decide(input).Ok? && Continues(env.decide(input).value)
    ensures AutomationRun(env, prompt, maxIterations).Ok?
    ensures |AutomationRun(env, prompt, maxIterations).value| == maxIterations
    ensures AutomationRun(env, prompt, maxIterations).value[maxIterations - 1].results.shouldRerun
  {
    IterateResolves(env, maxIterations, [], InitialParameters(env, prompt), None);
    RunIsThreaded(env, prompt, maxIterations);
    var h := AutomationRun(env, prompt, maxIterations).value;
    assert RecordFits(env, prompt, maxIterations, h, |h| - 1);
  }

  /** If the first decision stops, the history is that one record. */
  lemma StopsAtOnce(env: Automation, prompt: string, maxIterations: int, out: AutomationOutput)
    requires maxIterations >= 1
    requires env.decide(AutomationInput(InitialParameters(env, prompt), maxIterations, 0, None)) == Ok(out)
    requires !out.shouldRerun
    ensures AutomationRun(env, prompt, maxIterations) == Ok([IterationResult(1, InitialParameters(env, prompt), out)])
  {
    var empty: seq<IterationResult> := [];
    assert |empty| == 0 && empty + [IterationResult(1, InitialParameters(env, prompt), out)] == [IterationResult(1, InitialParameters(env, prompt), out)];
  }

  /** The loop's hard-coded seed is what the parameter schema's defaulting makes of the prompt, negative prompt and iteration 1. */
  lemma SeedMatchesSchemaDefaults(prompt: string)
    ensures Colab.ParseParams(map["prompt" := JsString(prompt),
                                  "negative_prompt" := JsString(SeedNegativePrompt),
                                  "iteration" := JsNumber(1.0)])
         == Ok(SeedParameters(prompt))
  {
    var raw := map["prompt" := JsString(prompt), "negative_prompt" := JsString(SeedNegativePrompt),
                   "iteration" := JsNumber(1.0)];
    Colab.ConformsKeyByKey(raw);
    Colab.SamplerNameRoundTrip(Colab.DefaultSampler);
  }

  // ---------------------------------------------------------------------
  // The loop itself.

  /**
   * `runAutomationLoop`. The ghost `calls` lists the inputs the decision
   * function was called with, in order.
   */
  method RunAutomationLoop(env: Automation, prompt: string, maxIterations: int)
    returns (r: Result<seq<IterationResult>, string>, ghost calls: seq<AutomationInput>)
    ensures r == AutomationRun(env, prompt, maxIterations)
    ensures r.Ok? ==> |calls| == |r.value|
    ensures r.Ok? ==> forall k :: 0 <= k < |calls| ==> calls[k] == InputAt(env, maxIterations, r.value, k)
    ensures r.Err? ==> |calls| >= 1 && env.decide(calls[|calls| - 1]) == Err(r.error)
    ensures r.Err? ==> forall k :: 0 <= k < |calls| - 1 ==> env.decide(calls[k]).Ok?
  {
    var allResults: seq<IterationResult> := [];
    var currentParameters := InitialParameters(env, prompt);
    var previousResults: Option<string> := None;
    calls := [];
    var i := 0;
    while i < maxIterations
      invariant i == |allResults|
      invariant Progress(env, prompt, maxIterations, allResults, currentParameters, previousResults)
      invariant Iterate(env, maxIterations, allResults, currentParameters, previousResults)
             == AutomationRun(env, prompt, maxIterations)
      invariant |calls| == i
      invariant forall k :: 0 <= k < i ==> calls[k] == InputAt(env, maxIterations, allResults, k)
      decreases maxIterations - i
    {
      var input := AutomationInput(currentParameters, maxIterations, i, previousResults);
      var output := env.decide(input);
      calls := calls + [input];
      if output.Err? {
        forall k | 0 <= k < i ensures env.decide(calls[k]).Ok? {
          assert RecordFits(env, prompt, maxIterations, allResults, k);
        }
        r := Err(output.error);
        return;
      }
      var record := IterationResult(i + 1, currentParameters, output.value);
      AppendKeepsFit(env, prompt, maxIterations, allResults, record);
      AppendedFits(env, prompt, maxIterations, allResults, currentParameters, previousResults, output.value);
      if output.value.shouldRerun && TruthyText(output.value.newParameters) {
        ProgressStep(env, prompt, maxIterations, allResults, currentParameters, previousResults, output.value);
        allResults := allResults + [record];
        currentParameters := output.value.newParameters.value;
        previousResults := Some(env.stringifyOutput(output.value));
      } else {
        allResults := allResults + [record];
        break;
      }
      i := i + 1;
    }
    r := Ok(allResults);
  }
}
