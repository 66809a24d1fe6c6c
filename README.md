# creator-tube: the automation loop and its guards, in Dafny

creator-tube is a Next.js app that iteratively generates a video from a text
prompt. It seeds a set of notebook parameters. It then asks an AI decision
function up to `maxIterations` times whether to run again, and with which new
parameters. Each answer is recorded as one iteration of a history that the
page displays. This project models the decision logic around that loop:

- `Js` (`js.dfy`): the slice of JavaScript's value model the code relies on.
  It covers decoded JSON values, objects as maps, truthiness, and
  `Option`/`Result`. A `Result`'s `Err` stands for a thrown error.
- `Colab` (`colab.dfy`): the notebook parameter schema, with its defaults and
  range checks, and the notebook output schema. It also covers the branch
  order of `runColabNotebook`: validate, then simulate when no runner URL is
  set, then POST and check the reply.
- `Actions` (`actions.dfy`): `runAutomationLoop` as an imperative method,
  proved against a recursive specification function `Iterate`. That function
  is in turn proved equal to an independent description of the histories,
  `Threaded`.
- `GenerateVideo` (`generate_video.dfy`): the `POST /api/generateVideo`
  relay. It checks the prompt first, then the configuration, forwards only
  `{prompt}`, and maps every failure to status 500 with `{error: message}`.
- `CreatorTube` (`creator_tube.dfy`): the page component. It covers:
  - the form schema;
  - the status icon, the header labels and the new-parameters panel;
  - the page class whose `OnSubmit` resets, runs and stores the loop's
    outcome.

External collaborators are parameters:
- the decision function `colabLoopAutomation`;
- `JSON.stringify`;
- zod's URL check;
- the environment variables;
- the backend's reply.

The decision function is the field `decide` of an `Automation` value. It
returns `Err` when its promise rejects.

On a non-ok backend reply, the relay (src/app/api/generateVideo/route.ts,
lines 41-47) tries to parse the body as a FastAPI error, and its comment at
line 41 says so. The intent is evidently to surface the backend's `detail`.
But the `throw` built from `detail` sits inside its own `try`, so the `catch`
right after it replaces the message with one built from the raw body. The
model follows the code and models the block as control flow:
- `GenerateVideo.InnerTry` is the inner block, and it never completes normally.
- `GenerateVideo.CatchRethrow` is its `catch`.
- `GenerateVideo.NonOkBlock` composes the two. Its contract derives that the
  block always throws the prefix followed by the raw body.
- `GenerateVideo.DetailThrownThenReplaced` shows a concrete case.

## Model

| member | source | states |
|---|---|---|
| Colab.SamplerNamed | src/services/colab.ts:17 | a name is accepted iff it is one of the five sampler identifiers, and the sampler it names has that name |
| Colab.SamplerNameRoundTrip | src/services/colab.ts:17 | every sampler's name is accepted and names that sampler again |
| Colab.RequiredString | src/services/colab.ts:10 | `prompt` passes only as a string, and the value kept is that string |
| Colab.OptionalString | src/services/colab.ts:11 | `negative_prompt` may be absent; when present, it must be a string and is kept unchanged |
| Colab.DefaultedInt | src/services/colab.ts:12-19 | an absent integer field takes its default; a supplied one must be an integer and is kept; when bounds apply, the kept value is inside them |
| Colab.OptionalInt | src/services/colab.ts:20 | `iteration` may be absent; when present, it must be an integer and is kept |
| Colab.CfgScale | src/services/colab.ts:16 | an absent `cfg_scale` becomes 2.05; a supplied one must lie in [1, 20] and is kept |
| Colab.SamplerField | src/services/colab.ts:17 | an absent `sampler_name` becomes `res_multistep`; a supplied one must be a listed name and yields that sampler |
| Colab.KeyConforms | src/services/colab.ts:9-21 | what the schema demands of a raw object at one key: a string for `prompt`; for `negative_prompt`, absent or a string; for the other keys, absent or an integer (or a number for `cfg_scale`, a listed name for `sampler_name`) within that key's bounds |
| Colab.Conforms | src/services/colab.ts:9-21 | the whole schema holds of a raw object iff it holds at every key |
| Colab.KeyConformsSpelled | src/services/colab.ts:10-20 | the demand at each key, written out with the key's property name and bounds |
| Colab.FieldFails | src/services/colab.ts:9-21 | one field's parser rejects a raw object exactly when the object breaks that field's constraint |
| Colab.ConformsKeyByKey | src/services/colab.ts:9-21 | an object conforms iff it passes each of the eleven field constraints, written out in declaration order |
| Colab.AllKeysListed | src/services/colab.ts:9-21 | the key list covers every schema field |
| Colab.Failing | src/services/colab.ts:9-21 | the failing keys reported are exactly the listed keys whose constraint is broken |
| Colab.ParseParams | src/services/colab.ts:9-21 | parsing succeeds iff every field conforms. It then yields the defaulted parameters, which are valid (steps 1-100, cfg 1-20, frames 1-120, fps 1-60). Otherwise it reports a non-empty list of exactly the failing keys |
| Colab.IntOr | src/services/colab.ts:12-20 | an integer field's value is the supplied number, or the default when the field is absent |
| Colab.Materialize | src/services/colab.ts:12-20 | defaulting fills each absent field with 832, 480, 0, 25, 2.05, `res_multistep`, 73 or 24, and keeps every supplied field unchanged |
| Colab.ParamsToRawAt | src/services/colab.ts:9-21 | writing parameters out puts each field's value under its schema key |
| Colab.ParamsToRawConforms | src/services/colab.ts:9-21 | valid parameters, written out, conform to the schema |
| Colab.MaterializedFields | src/services/colab.ts:9-21 | every field of valid parameters survives writing out and defaulting; the sampler keeps its name |
| Colab.MaterializeParamsToRaw | src/services/colab.ts:9-21 | defaulting written-out valid parameters gives them back |
| Colab.ParamsRoundTrip | src/services/colab.ts:9-21 | valid parameters, written out and parsed again, come back unchanged |
| Colab.ParseIdempotent | src/services/colab.ts:9-21 | a parsed parameter set parses to itself |
| Colab.UnconstrainedDimensions | src/services/colab.ts:12-14 | any integers, negative ones included, pass as width, height and seed |
| Colab.PromptRequired | src/services/colab.ts:10-11 | an object without `prompt` is rejected, and `prompt` is among the reported keys |
| Colab.ParseOutput | src/services/colab.ts:26-30 | an output is accepted iff `success` is a boolean, `log` a string, and `videoUrl` is absent or a string passing the URL check; the accepted fields are carried over unchanged |
| Colab.OutputRoundTrip | src/services/colab.ts:26-30 | an output whose URL passes the check parses back to itself |
| Colab.RunNotebook | src/services/colab.ts:40-81 | invalid parameters reject with the failing keys, and no request is made. With no runner URL, the fixed simulated output is returned. Otherwise one POST goes to the runner URL carrying the parsed parameters. A failed fetch rejects with its message, and a non-ok reply rejects with its status and body. A body that is not JSON rejects with the parse error. Otherwise the result is the reply's output if the output schema accepts it, and a rejection naming the failing fields if not |
| Colab.ValidationPrecedesRunner | src/services/colab.ts:44-48 | for invalid parameters, neither the runner URL nor the backend changes the outcome, and no request is made |
| Actions.Continues | src/app/actions.ts:50 | the loop goes on iff a rerun is asked for and the parameters handed on are non-empty |
| Actions.Iterate | src/app/actions.ts:34-58 | the loop from a given state: the history it resolves with extends the results so far, stays within the bound, and gains at least one record when the bound is not yet reached |
| Actions.AutomationRun | src/app/actions.ts:11-59 | a resolving run returns no records for a bound of at most 0, and between 1 and the bound records otherwise |
| Actions.SeedParameters | src/app/actions.ts:18-30 | the seed parameter set satisfies the schema's range constraints |
| Actions.SeedMatchesSchemaDefaults | src/app/actions.ts:18-30 | the seed is what the schema's defaulting makes of the prompt, the fixed negative prompt and `iteration: 1` |
| Actions.AppendKeepsFit | src/app/actions.ts:44-48 | appending a record changes neither the inputs nor the consistency of earlier records |
| Actions.AppendedFits | src/app/actions.ts:35-48 | the record a pass appends is numbered `i + 1`, carries the current parameters and holds the decision's answer to that pass's input |
| Actions.ProgressStep | src/app/actions.ts:50-52 | a pass that continues hands the new parameters and the serialised outcome to the next pass |
| Actions.StopIsThreaded | src/app/actions.ts:53-55 | a pass that stops ends the loop with a consistently threaded history |
| Actions.BudgetSpentIsThreaded | src/app/actions.ts:34 | when the bound is reached, the results so far are a consistently threaded history |
| Actions.IterateThreaded | src/app/actions.ts:34-58 | every history the loop returns from a consistent state is threaded and extends that state's results; records are only appended |
| Actions.ThreadedNext | src/app/actions.ts:35-48 | in a threaded history, the record after a consistent prefix is the one the loop appends next |
| Actions.ThreadedIterate | src/app/actions.ts:34-58 | the loop returns every threaded history that extends its state's results |
| Actions.RunIsThreaded | src/app/actions.ts:11-59 | a run that resolves returns a threaded history |
| Actions.ThreadedIsRun | src/app/actions.ts:11-59 | a threaded history is exactly what the run resolves with |
| Actions.ThreadedUnique | src/app/actions.ts:11-59 | at most one history is threaded for a given decision function, prompt and bound |
| Actions.RunHistory | src/app/actions.ts:34-56 | the history is empty for a bound of at most 0, and between 1 and the bound otherwise. Records are numbered from 1, and the first runs on the seed with no previous results. Each later record runs on its predecessor's new parameters and is given that predecessor's serialised outcome. Every record but the last asked to rerun. A history shorter than the bound ends with an outcome that stops |
| Actions.IterateResolves | src/app/actions.ts:42 | if the decision function never rejects, neither does the loop |
| Actions.IterateRejects | src/app/actions.ts:42 | a rejection of the loop is the rejection of one of its own decision calls, passed on unchanged: a call given the loop's bound and an iteration count from the passes already made up to below the bound |
| Actions.ExhaustsBudget | src/app/actions.ts:34-56 | if every decision asks to go on with new parameters, the history has exactly `maxIterations` records, and the last still asks to rerun |
| Actions.StopsAtOnce | src/app/actions.ts:50-55 | if the first decision does not ask to rerun, the history is that single record |
| Actions.RunAutomationLoop | src/app/actions.ts:11-59 | the method resolves or rejects exactly as the specification function does. On success, the number of decision calls equals the history's length, and call k received iteration count k, the unchanged bound, record k's parameters and the serialised previous outcome. On rejection, the last call rejected with that error and every earlier call resolved |
| GenerateVideo.InnerTry | src/app/api/generateVideo/route.ts:42-44 | the inner `try` block never completes normally. A body that does not parse throws the parse error. A `detail` that cannot be read throws that error. Otherwise it throws the prefix followed by `detail`, or by the raw body when `detail` is missing |
| GenerateVideo.CatchRethrow | src/app/api/generateVideo/route.ts:45-47 | the `catch` turns any throw, whatever its message, into a throw of the prefix followed by the raw body. A normal completion passes through |
| GenerateVideo.NonOkBlock | src/app/api/generateVideo/route.ts:39-48 | the non-ok block always throws "Error del servidor de Colab: " followed by the raw body text |
| GenerateVideo.BackendErrorIgnoresDetail | src/app/api/generateVideo/route.ts:42-47 | what that block throws depends neither on whether the body parses as JSON nor on its `detail` |
| GenerateVideo.DetailThrownThenReplaced | src/app/api/generateVideo/route.ts:42-47 | for a body with `detail` "boom", the inner block throws "boom", but the whole block throws the raw body |
| GenerateVideo.PassThrough | src/app/api/generateVideo/route.ts:50-51 | an ok reply's JSON is returned unchanged with status 200; a body that does not parse becomes status 500 with the parser's message |
| GenerateVideo.HandlePost | src/app/api/generateVideo/route.ts:3-60 | the status is 200 exactly when backend JSON is returned, and 500 with `{error: message}` otherwise. A request is forwarded iff the body parses, the prompt is truthy and the configuration is set. It goes to `<COLAB_SERVER_URL>/generate-video` with body `{prompt}`. Each failure carries its own message: request-body parse error, missing prompt, missing configuration, transport error, non-ok reply (prefix plus raw body), or unparsable ok reply (parse error). An ok reply that parses is returned unchanged with status 200 |
| GenerateVideo.PromptCheckedFirst | src/app/api/generateVideo/route.ts:10-19 | without a truthy prompt, the answer is the prompt error and nothing is forwarded, whatever the configuration and backend |
| GenerateVideo.OnlyPromptForwarded | src/app/api/generateVideo/route.ts:23-27 | the forwarded body has exactly one key, `prompt`, holding the request's prompt; `maxIterations` is dropped |
| CreatorTube.ValidateForm | src/components/creator-tube.tsx:38-41 | the form is accepted iff the prompt has at least 10 characters and the coerced number is an integer in [1, 10]. Otherwise each failing check is reported: short prompt, NaN, non-integer, below 1, above 10 |
| CreatorTube.StatusOf | src/components/creator-tube.tsx:91-100 | the status icon: rerunning for a non-last record; for the last, completed when it did not ask to rerun, and stopped at the limit when it did |
| CreatorTube.CompletedLabel | src/components/creator-tube.tsx:219 | the "Completado" label is shown iff the record's icon is the completed one |
| CreatorTube.StoppedLabel | src/components/creator-tube.tsx:220 | the "Detenido (Máx. Iteraciones)" label is shown iff the record's icon is the stopped one |
| CreatorTube.RerunningLabel | src/components/creator-tube.tsx:221 | for a displayed record, the "Re-ejecutando..." label is shown iff its icon is the rerunning one |
| CreatorTube.ShowsNewParameters | src/components/creator-tube.tsx:233 | the new-parameters panel is shown iff the loop goes on from the record and the record carries the rerunning label |
| CreatorTube.ExactlyOneLabel | src/components/creator-tube.tsx:219-221 | for every index in range, exactly one of the three header labels applies |
| CreatorTube.HistoryDisplay | src/components/creator-tube.tsx:233 | on a history the loop returns, a record is shown as rerunning and with the new-parameters panel iff it is not the last. The last record shows as completed iff it did not ask to rerun |
| CreatorTube.LimitLabelOnEarlyStop | src/components/creator-tube.tsx:94-97 | a run with bound 3 that stops after one record, because no new parameters came, still labels that record as stopped at the limit |
| CreatorTube.FinalVideoUrl | src/components/creator-tube.tsx:65-67 | the final video is set iff the last record exists and has a non-empty URL, and it is that URL |
| CreatorTube.Page.constructor | src/components/creator-tube.tsx:44-46 | the page starts not loading, with an empty history and no final video |
| CreatorTube.Page.OnSubmit | src/components/creator-tube.tsx:57-89 | after a submission, the page is not loading. On success, it shows the run's history and the final video chosen from it, and raises the video-ready toast when that video is set, otherwise a finished toast with the iteration count. On rejection, it shows an empty history, no video, and a failure toast carrying the error message |
| CreatorTube.AcceptedSubmissionShowsHistory | src/components/creator-tube.tsx:38-41 | a submission the form accepts that resolves shows between 1 and `maxIterations` records, at most 10 |

## Left out

- `JSON.stringify` and `JSON.parse` are abstract functions, and zod's `.url()` is an abstract predicate. Parameter and decision strings are opaque.
- `colabLoopAutomation` is an uninterpreted function. Its internals are an AI call outside this repository.
- `fetch`, `response.text()` / `response.json()`, `process.env`, `setTimeout` and `console.*` are left out. Environment values and backend replies are parameters, and the simulated two-second delay and the logging are not modelled.
- Numbers are reals: NaN and the infinities are not modelled, except that the form's coercion to NaN is the `None` case of `CreatorTube.ValidateForm`.
- CreatorTube.FormValues: `maxIterations` is an `int`, because the form only lets integers through. A fractional bound passed to the loop directly is not modelled.
- Colab.ParseParams: zod's issue messages are reduced to the list of failing keys.
- Colab.ParseOutput: issues are reduced to the names of the failing fields. A reply body that is JSON but not an object is not modelled.
- Colab.RunNotebook: the runner's errors are told apart by kind and data, not by message text. The schema's rejection is thrown before the `try` (line 44) and reaches the caller as it is. Errors raised inside the `try` are rethrown as a new `Error` with the same message (line 79). The fallback message for a thrown value that is not an `Error` does not arise in the model.
- GenerateVideo.HandlePost: request bodies that parse to `null` or to a primitive are not modelled; the body is an object or a parse error. A truthy `detail` that is not a string is not modelled (its template-string conversion); the message for a non-ok reply never depends on it anyway.
- CreatorTube.Page.OnSubmit: the intermediate render while loading, the toasts' Spanish titles and texts, and `console.error` are not modelled. React state setters are field assignments, and await scheduling is sequential.
- Rendering is not modelled: JSX markup, the pretty-printing of parameters, and the loader.
- String lengths count characters. JavaScript counts UTF-16 code units, which differs for characters outside the Basic Multilingual Plane.
- main.py is not part of this model. It is a FastAPI server doing file I/O and an upload to a third-party service. Its request model also demands `maxIterations`, which the relay never forwards.
- src/app/layout.tsx and src/app/page.tsx hold only static markup and are not modelled.
