/**
 * The notebook parameter and output schemas, and the branch structure of the
 * notebook runner: validate the parameters, fall back to a fixed simulated
 * output when no runner URL is configured, otherwise post the validated
 * parameters and validate what comes back.
 */
module Colab {
  import opened Js

  /** The closed set of sampler identifiers the schema admits. */
  datatype Sampler = ResMultistep | Euler | Dpmpp2m | Ddim | Lms

  function SamplerName(s: Sampler): string {
    match s
    case ResMultistep => "res_multistep"
    case Euler => "euler"
    case Dpmpp2m => "dpmpp_2m"
    case Ddim => "ddim"
    case Lms => "lms"
  }

  /** The enum check: the sampler a name denotes, if any. */
  function SamplerNamed(name: string): (r: Option<Sampler>)
    ensures r.Some? ==> SamplerName(r.value) == name
    ensures r.None? ==> forall s: Sampler :: SamplerName(s) != name
  {
    if name == "res_multistep" then Some(ResMultistep)
    else if name == "euler" then Some(Euler)
    else if name == "dpmpp_2m" then Some(Dpmpp2m)
    else if name == "ddim" then Some(Ddim)
    else if name == "lms" then Some(Lms)
    else None
  }

  /** A parameter set after validation and defaulting. */
  datatype NotebookParams = NotebookParams(
    prompt: string,
    negativePrompt: Option<string>,
    width: int,
    height: int,
    seed: int,
    steps: int,
    cfgScale: real,
    sampler: Sampler,
    frames: int,
    fps: int,
    iteration: Option<int>)

  const DefaultWidth: int := 832
  const DefaultHeight: int := 480
  const DefaultSeed: int := 0
  const DefaultSteps: int := 25
  const DefaultCfgScale: real := 2.05
  const DefaultSampler: Sampler := ResMultistep
  const DefaultFrames: int := 73
  const DefaultFps: int := 24

  /** The schema's keys, in declaration order (the order issues are reported in). */
  datatype ParamKey =
    | PromptKey | NegativePromptKey | WidthKey | HeightKey | SeedKey | StepsKey
    | CfgScaleKey | SamplerNameKey | FramesKey | FpsKey | IterationKey

  /** The property name each key has in the JSON object. */
  function KeyName(k: ParamKey): string {
    match k
    case PromptKey => "prompt"
    case NegativePromptKey => "negative_prompt"
    case WidthKey => "width"
    case HeightKey => "height"
    case SeedKey => "seed"
    case StepsKey => "steps"
    case CfgScaleKey => "cfg_scale"
    case SamplerNameKey => "sampler_name"
    case FramesKey => "frames"
    case FpsKey => "fps"
    case IterationKey => "iteration"
  }

  /**
   * The ranges the schema imposes on a typed parameter set. Width, height,
   * seed and iteration only have to be integers, which their type already says.
   */
  predicate Valid(p: NotebookParams) {
    && 1 <= p.steps <= 100
    && 1.0 <= p.cfgScale <= 20.0
    && 1 <= p.frames <= 120
    && 1 <= p.fps <= 60
  }

  // ---------------------------------------------------------------------
  // The schema stated declaratively, key by key, on the raw object.

  ghost predicate StringAt(raw: JsObject, key: string) {
    key in raw && raw[key].JsString?
  }

  ghost predicate OptionalStringAt(raw: JsObject, key: string) {
    key in raw ==> raw[key].JsString?
  }

  /** Absent, or an integral number in [lo, hi] when bounds are given. */
  ghost predicate OptionalIntegerAt(raw: JsObject, key: string, bounds: Option<(int, int)>) {
    key in raw ==>
      && raw[key].JsNumber?
      && IsInteger(raw[key].n)
      && (bounds.Some? ==> bounds.value.0 as real <= raw[key].n <= bounds.value.1 as real)
  }

  /** Whether a raw object satisfies the schema at one key. */
  ghost predicate KeyConforms(raw: JsObject, k: ParamKey) {
    var key := KeyName(k);
    match k
    case PromptKey => StringAt(raw, key)
    case NegativePromptKey => OptionalStringAt(raw, key)
    case StepsKey => OptionalIntegerAt(raw, key, Some((1, 100)))
    case CfgScaleKey => key in raw ==> raw[key].JsNumber? && 1.0 <= raw[key].n <= 20.0
    case SamplerNameKey => key in raw ==> raw[key].JsString? && SamplerNamed(raw[key].s).Some?
    case FramesKey => OptionalIntegerAt(raw, key, Some((1, 120)))
    case FpsKey => OptionalIntegerAt(raw, key, Some((1, 60)))
    case WidthKey => OptionalIntegerAt(raw, key, None)
    case HeightKey => OptionalIntegerAt(raw, key, None)
    case SeedKey => OptionalIntegerAt(raw, key, None)
    case IterationKey => OptionalIntegerAt(raw, key, None)
  }

  /** The whole schema holds of a raw object: it conforms at every key. */
  ghost predicate Conforms(raw: JsObject) {
    forall k: ParamKey :: KeyConforms(raw, k)
  }

  /** The schema written out field by field, in declaration order. */
  lemma ConformsKeyByKey(raw: JsObject)
    ensures Conforms(raw) <==>
      && StringAt(raw, "prompt")
      && OptionalStringAt(raw, "negative_prompt")
      && OptionalIntegerAt(raw, "width", None)
      && OptionalIntegerAt(raw, "height", None)
      && OptionalIntegerAt(raw, "seed", None)
      && OptionalIntegerAt(raw, "steps", Some((1, 100)))
      && ("cfg_scale" in raw ==> raw["cfg_scale"].JsNumber? && 1.0 <= raw["cfg_scale"].n <= 20.0)
      && ("sampler_name" in raw ==> raw["sampler_name"].JsString? && SamplerNamed(raw["sampler_name"].s).Some?)
      && OptionalIntegerAt(raw, "frames", Some((1, 120)))
      && OptionalIntegerAt(raw, "fps", Some((1, 60)))
      && OptionalIntegerAt(raw, "iteration", None)
  {
    KeyConformsSpelled(raw);
    if && KeyConforms(raw, PromptKey) && KeyConforms(raw, NegativePromptKey) && KeyConforms(raw, WidthKey)
       && KeyConforms(raw, HeightKey) && KeyConforms(raw, SeedKey) && KeyConforms(raw, StepsKey)
       && KeyConforms(raw, CfgScaleKey) && KeyConforms(raw, SamplerNameKey) && KeyConforms(raw, FramesKey)
       && KeyConforms(raw, FpsKey) && KeyConforms(raw, IterationKey)
    {
      forall k: ParamKey ensures KeyConforms(raw, k) {
        match k
        case PromptKey =>
        case NegativePromptKey =>
        case WidthKey =>
        case HeightKey =>
        case SeedKey =>
        case StepsKey =>
        case CfgScaleKey =>
        case SamplerNameKey =>
        case FramesKey =>
        case FpsKey =>
        case IterationKey =>
      }
    }
  }

  /** What the schema demands at each key, with the key's property name written out. */
  lemma KeyConformsSpelled(raw: JsObject)
    ensures KeyConforms(raw, PromptKey) == StringAt(raw, "prompt")
    ensures KeyConforms(raw, NegativePromptKey) == OptionalStringAt(raw, "negative_prompt")
    ensures KeyConforms(raw, WidthKey) == OptionalIntegerAt(raw, "width", None)
    ensures KeyConforms(raw, HeightKey) == OptionalIntegerAt(raw, "height", None)
    ensures KeyConforms(raw, SeedKey) == OptionalIntegerAt(raw, "seed", None)
    ensures KeyConforms(raw, StepsKey) == OptionalIntegerAt(raw, "steps", Some((1, 100)))
    ensures KeyConforms(raw, CfgScaleKey) ==
      ("cfg_scale" in raw ==> raw["cfg_scale"].JsNumber? && 1.0 <= raw["cfg_scale"].n <= 20.0)
    ensures KeyConforms(raw, SamplerNameKey) ==
      ("sampler_name" in raw ==> raw["sampler_name"].JsString? && SamplerNamed(raw["sampler_name"].s).Some?)
    ensures KeyConforms(raw, FramesKey) == OptionalIntegerAt(raw, "frames", Some((1, 120)))
    ensures KeyConforms(raw, FpsKey) == OptionalIntegerAt(raw, "fps", Some((1, 60)))
    ensures KeyConforms(raw, IterationKey) == OptionalIntegerAt(raw, "iteration", None)
  {
  }

  /** The number a raw object supplies for a key, or the default when it supplies none. */
  ghost function NumberOr(raw: JsObject, key: string, default: real): real {
    if key in raw && raw[key].JsNumber? then raw[key].n else default
  }

  // ---------------------------------------------------------------------
  // Field parsers, one per kind of field the schema declares.

  function RequiredString(v: Option<JsValue>): (r: Option<string>)
    ensures r.Some? ==> v == Some(JsString(r.value))
  {
    if v.Some? && v.value.JsString? then Some(v.value.s) else None
  }

  /** `z.string().optional()`: Some(x) is success with value x. */
  function OptionalString(v: Option<JsValue>): (r: Option<Option<string>>)
    ensures r.Some? ==> if v.None? then r.value.None? else r.value.Some? && v.value == JsString(r.value.value)
  {
    match v
    case None => Some(None)
    case Some(JsString(s)) => Some(Some(s))
    case Some(_) => None
  }

  /** `z.number().int()` with optional min/max, and `.default(d)` when missing. */
  function DefaultedInt(v: Option<JsValue>, default: int, bounds: Option<(int, int)>): (r: Option<int>)
    ensures r.Some? ==> if v.None? then r.value == default else v.value == JsNumber(r.value as real)
    ensures r.Some? && v.Some? && bounds.Some? ==> bounds.value.0 <= r.value <= bounds.value.1
  {
    match v
    case None => Some(default)
    case Some(JsNumber(n)) =>
      if IsInteger(n) && (bounds.Some? ==> bounds.value.0 as real <= n <= bounds.value.1 as real)
      then Some(n.Floor) else None
    case Some(_) => None
  }

  /** `z.number().int().optional()`. */
  function OptionalInt(v: Option<JsValue>): (r: Option<Option<int>>)
    ensures r.Some? ==> if v.None? then r.value.None? else r.value.Some? && v.value == JsNumber(r.value.value as real)
  {
    match v
    case None => Some(None)
    case Some(JsNumber(n)) => if IsInteger(n) then Some(Some(n.Floor)) else None
    case Some(_) => None
  }

  /** `z.number().min(1).max(20).default(2.05)`. */
  function CfgScale(v: Option<JsValue>): (r: Option<real>)
    ensures r.Some? ==> if v.None? then r.value == DefaultCfgScale else v.value == JsNumber(r.value)
    ensures r.Some? ==> 1.0 <= r.value <= 20.0 || v.None?
  {
    match v
    case None => Some(DefaultCfgScale)
    case Some(JsNumber(n)) => if 1.0 <= n <= 20.0 then Some(n) else None
    case Some(_) => None
  }

  /** `z.enum([...]).default("res_multistep")`. */
  function SamplerField(v: Option<JsValue>): (r: Option<Sampler>)
    ensures r.Some? ==> if v.None? then r.value == DefaultSampler else v.value == JsString(SamplerName(r.value))
  {
    match v
    case None => Some(DefaultSampler)
    case Some(JsString(s)) => SamplerNamed(s)
    case Some(_) => None
  }

  /** Whether the parser of one field rejects what a raw object holds at its key. */
  function FieldFails(raw: JsObject, k: ParamKey): (fails: bool)
    ensures fails <==> !KeyConforms(raw, k)
  {
    var v := Get(raw, KeyName(k));
    match k
    case PromptKey => RequiredString(v).None?
    case NegativePromptKey => OptionalString(v).None?
    case WidthKey => DefaultedInt(v, DefaultWidth, None).None?
    case HeightKey => DefaultedInt(v, DefaultHeight, None).None?
    case SeedKey => DefaultedInt(v, DefaultSeed, None).None?
    case StepsKey => DefaultedInt(v, DefaultSteps, Some((1, 100))).None?
    case CfgScaleKey => CfgScale(v).None?
    case SamplerNameKey => SamplerField(v).None?
    case FramesKey => DefaultedInt(v, DefaultFrames, Some((1, 120))).None?
    case FpsKey => DefaultedInt(v, DefaultFps, Some((1, 60))).None?
    case IterationKey => OptionalInt(v).None?
  }

  /** Every schema key, in declaration order. */
  const AllKeys: seq<ParamKey> := [PromptKey, NegativePromptKey, WidthKey, HeightKey, SeedKey,
    StepsKey, CfgScaleKey, SamplerNameKey, FramesKey, FpsKey, IterationKey]

  lemma AllKeysListed()
    ensures forall k: ParamKey :: k in AllKeys
  {
    forall k: ParamKey ensures k in AllKeys {
      match k
      case PromptKey =>
      case NegativePromptKey =>
      case WidthKey =>
      case HeightKey =>
      case SeedKey =>
      case StepsKey =>
      case CfgScaleKey =>
      case SamplerNameKey =>
      case FramesKey =>
      case FpsKey =>
      case IterationKey =>
    }
  }

  /** The keys among `keys` at which a raw object violates the schema, in order. */
  function {:induction false} Failing(raw: JsObject, keys: seq<ParamKey>): (r: seq<ParamKey>)
    ensures forall k :: k in r <==> k in keys && !KeyConforms(raw, k)
    ensures |r| <= |keys|
  {
    if keys == [] then []
    else (if FieldFails(raw, keys[0]) then [keys[0]] else []) + Failing(raw, keys[1..])
  }

  /**
   * `ColabNotebookParametersSchema.parse`: either the typed, defaulted
   * parameter set, or every key at which the raw object fails, in schema order.
   */
  function ParseParams(raw: JsObject): (r: Result<NotebookParams, seq<ParamKey>>)
    ensures r.Ok? <==> Conforms(raw)
    ensures r.Err? ==> r.error != [] && forall k :: k in r.error <==> !KeyConforms(raw, k)
    ensures r.Ok? ==> Valid(r.value) && r.value == Materialize(raw)
  {
    AllKeysListed();
    var issues := Failing(raw, AllKeys);
    if issues != [] then
      assert issues[0] in issues;
      Err(issues)
    else
      Ok(Materialize(raw))
  }

  /** An integer field: the number supplied, or the default when the key is missing. */
  function IntOr(raw: JsObject, key: string, default: int, bounds: Option<(int, int)>): (n: int)
    requires OptionalIntegerAt(raw, key, bounds)
    ensures n as real == NumberOr(raw, key, default as real)
    ensures key in raw && bounds.Some? ==> bounds.value.0 <= n <= bounds.value.1
  {
    DefaultedInt(Get(raw, key), default, bounds).value
  }

  /**
   * Defaulting: the typed parameter set of a conforming raw object. A field
   * the object supplies is kept as supplied; a missing field takes the
   * schema's default; the two optional fields stay absent when missing.
   */
  function Materialize(raw: JsObject): (p: NotebookParams)
    requires Conforms(raw)
    ensures Valid(p)
    ensures "prompt" in raw && raw["prompt"] == JsString(p.prompt)
    ensures p.negativePrompt.Some? <==> "negative_prompt" in raw
    ensures p.negativePrompt.Some? ==> raw["negative_prompt"] == JsString(p.negativePrompt.value)
    ensures p.width as real == NumberOr(raw, "width", DefaultWidth as real)
    ensures p.height as real == NumberOr(raw, "height", DefaultHeight as real)
    ensures p.seed as real == NumberOr(raw, "seed", DefaultSeed as real)
    ensures p.steps as real == NumberOr(raw, "steps", DefaultSteps as real)
    ensures p.cfgScale == NumberOr(raw, "cfg_scale", DefaultCfgScale)
    ensures p.frames as real == NumberOr(raw, "frames", DefaultFrames as real)
    ensures p.fps as real == NumberOr(raw, "fps", DefaultFps as real)
    ensures "sampler_name" in raw ==> raw["sampler_name"] == JsString(SamplerName(p.sampler))
    ensures "sampler_name" !in raw ==> p.sampler == DefaultSampler
    ensures p.iteration.Some? <==> "iteration" in raw
    ensures p.iteration.Some? ==> raw["iteration"] == JsNumber(p.iteration.value as real)
  {
    KeyConformsSpelled(raw);
    NotebookParams(
      raw["prompt"].s,
      OptionalString(Get(raw, "negative_prompt")).value,
      IntOr(raw, "width", DefaultWidth, None),
      IntOr(raw, "height", DefaultHeight, None),
      IntOr(raw, "seed", DefaultSeed, None),
      IntOr(raw, "steps", DefaultSteps, Some((1, 100))),
      CfgScale(Get(raw, "cfg_scale")).value,
      SamplerField(Get(raw, "sampler_name")).value,
      IntOr(raw, "frames", DefaultFrames, Some((1, 120))),
      IntOr(raw, "fps", DefaultFps, Some((1, 60))),
      OptionalInt(Get(raw, "iteration")).value)
  }

  /** The object `JSON.stringify` would describe for a parameter set (optional fields omitted when absent). */
  function ParamsToRaw(p: NotebookParams): JsObject {
    var base := map[
      "prompt" := JsString(p.prompt),
      "width" := JsNumber(p.width as real),
      "height" := JsNumber(p.height as real),
      "seed" := JsNumber(p.seed as real),
      "steps" := JsNumber(p.steps as real),
      "cfg_scale" := JsNumber(p.cfgScale),
      "sampler_name" := JsString(SamplerName(p.sampler)),
      "frames" := JsNumber(p.frames as real),
      "fps" := JsNumber(p.fps as real)];
    var withNegative := if p.negativePrompt.Some? then base["negative_prompt" := JsString(p.negativePrompt.value)] else base;
    if p.iteration.Some? then withNegative["iteration" := JsNumber(p.iteration.value as real)] else withNegative
  }

  lemma {:induction false} SamplerNameRoundTrip(s: Sampler)
    ensures SamplerNamed(SamplerName(s)) == Some(s)
  {
    match s
    case ResMultistep =>
    case Euler =>
    case Dpmpp2m =>
    case Ddim =>
    case Lms =>
  }

  /** What each key of a written-out parameter set holds. */
  lemma ParamsToRawAt(p: NotebookParams)
    ensures var raw := ParamsToRaw(p);
      && raw["prompt"] == JsString(p.prompt)
      && ("negative_prompt" in raw <==> p.negativePrompt.Some?)
      && (p.negativePrompt.Some? ==> raw["negative_prompt"] == JsString(p.negativePrompt.value))
      && raw["width"] == JsNumber(p.width as real) && raw["height"] == JsNumber(p.height as real)
      && raw["seed"] == JsNumber(p.seed as real) && raw["steps"] == JsNumber(p.steps as real)
      && raw["cfg_scale"] == JsNumber(p.cfgScale)
      && raw["sampler_name"] == JsString(SamplerName(p.sampler))
      && raw["frames"] == JsNumber(p.frames as real) && raw["fps"] == JsNumber(p.fps as real)
      && ("iteration" in raw <==> p.iteration.Some?)
      && (p.iteration.Some? ==> raw["iteration"] == JsNumber(p.iteration.value as real))
  {
  }

  /** A valid parameter set, written out, conforms to the schema. */
  lemma ParamsToRawConforms(p: NotebookParams)
    requires Valid(p)
    ensures Conforms(ParamsToRaw(p))
  {
    var raw := ParamsToRaw(p);
    ParamsToRawAt(p);
    SamplerNameRoundTrip(p.sampler);
    ConformsKeyByKey(raw);
  }

  /** Defaulting a written-out valid parameter set gives that set back. */
  lemma MaterializeParamsToRaw(p: NotebookParams)
    requires Valid(p)
    ensures Conforms(ParamsToRaw(p)) && Materialize(ParamsToRaw(p)) == p
  {
    ParamsToRawConforms(p);
    var q := Materialize(ParamsToRaw(p));
    MaterializedFields(p);
    SamplerNameRoundTrip(q.sampler);
    SamplerNameRoundTrip(p.sampler);
  }

  /** Every field survives writing out and defaulting; the sampler keeps its name. */
  lemma MaterializedFields(p: NotebookParams)
    requires Valid(p)
    ensures Conforms(ParamsToRaw(p))
    ensures var q := Materialize(ParamsToRaw(p));
      && q.width == p.width && q.height == p.height && q.seed == p.seed && q.steps == p.steps
      && q.cfgScale == p.cfgScale && q.frames == p.frames && q.fps == p.fps
      && q.prompt == p.prompt && q.negativePrompt == p.negativePrompt && q.iteration == p.iteration
      && SamplerName(q.sampler) == SamplerName(p.sampler)
  {
    ParamsToRawConforms(p);
    ParamsToRawAt(p);
  }

  /** A valid parameter set, written out and parsed again, comes back unchanged. */
  lemma ParamsRoundTrip(p: NotebookParams)
    requires Valid(p)
    ensures ParseParams(ParamsToRaw(p)) == Ok(p)
  {
    MaterializeParamsToRaw(p);
  }

  /** Parsing is idempotent: a parsed parameter set parses to itself. */
  lemma ParseIdempotent(raw: JsObject)
    requires ParseParams(raw).Ok?
    ensures ParseParams(ParamsToRaw(ParseParams(raw).value)) == ParseParams(raw)
  {
    ParamsRoundTrip(ParseParams(raw).value);
  }

  /** Width, height and seed carry no sign or range constraint: any integers pass. */
  lemma UnconstrainedDimensions(p: NotebookParams, width: int, height: int, seed: int)
    requires Valid(p)
    ensures ParseParams(ParamsToRaw(p.(width := width, height := height, seed := seed)))
         == Ok(p.(width := width, height := height, seed := seed))
  {
    ParamsRoundTrip(p.(width := width, height := height, seed := seed));
  }

  /** A parameter object without `prompt` is rejected, whatever else it holds. */
  lemma PromptRequired(raw: JsObject)
    requires "prompt" !in raw
    ensures ParseParams(raw).Err? && PromptKey in ParseParams(raw).error
  {
    assert !KeyConforms(raw, PromptKey);
  }

  // ---------------------------------------------------------------------
  // Output schema.

  datatype NotebookOutput = NotebookOutput(success: bool, videoUrl: Option<string>, log: string)

  /**
   * `ColabNotebookOutputSchema.parse`. Whether a string passes `.url()` is
   * not modelled; it is the predicate `isUrl`.
   */
  function ParseOutput(raw: JsObject, isUrl: string -> bool): (r: Result<NotebookOutput, seq<string>>)
    ensures r.Ok? <==>
      && "success" in raw && raw["success"].JsBool?
      && "log" in raw && raw["log"].JsString?
      && ("videoUrl" in raw ==> raw["videoUrl"].JsString? && isUrl(raw["videoUrl"].s))
    ensures r.Ok? ==>
      && r.value.success == raw["success"].b
      && r.value.log == raw["log"].s
      && r.value.videoUrl == (if "videoUrl" in raw then Some(raw["videoUrl"].s) else None)
    ensures r.Err? ==> r.error != []
  {
    var success := match Get(raw, "success") case Some(JsBool(b)) => Some(b) case _ => None;
    var videoUrl: Option<Option<string>> :=
      match Get(raw, "videoUrl")
      case None => Some(None)
      case Some(JsString(s)) => if isUrl(s) then Some(Some(s)) else None
      case Some(_) => None;
    var log := RequiredString(Get(raw, "log"));
    var issues := (if success.None? then ["success"] else [])
      + (if videoUrl.None? then ["videoUrl"] else [])
      + (if log.None? then ["log"] else []);
    if issues == [] then Ok(NotebookOutput(success.value, videoUrl.value, log.value)) else Err(issues)
  }

  function OutputToRaw(o: NotebookOutput): JsObject {
    var base := map["success" := JsBool(o.success), "log" := JsString(o.log)];
    if o.videoUrl.Some? then base["videoUrl" := JsString(o.videoUrl.value)] else base
  }

  /** An output whose URL (if any) passes the URL check parses back to itself. */
  lemma OutputRoundTrip(o: NotebookOutput, isUrl: string -> bool)
    requires o.videoUrl.Some? ==> isUrl(o.videoUrl.value)
    ensures ParseOutput(OutputToRaw(o), isUrl) == Ok(o)
  {
  }

  // ---------------------------------------------------------------------
  // The runner.

  const SampleVideoUrl: string := "http://commondatastorage.googleapis.com/gtv-videos-bucket/sample/BigBuckBunny.mp4"
  const SimulatedLog: string :=
    "Simulated execution as NEXT_PUBLIC_COLAB_RUNNER_URL is not configured. Video generated successfully."

  /** What the runner returns when no runner URL is configured. */
  const SimulatedOutput: NotebookOutput := NotebookOutput(true, Some(SampleVideoUrl), SimulatedLog)

  /** What `fetch` produced: a transport failure, or a response with its text and JSON decoding. */
  datatype BackendReply =
    | Unreachable(message: string)
    | Answered(ok: bool, status: int, text: string, json: Result<JsObject, string>)

  /**
   * The failures the runner surfaces, by kind: the schema's rejection of the
   * parameters, a non-ok status, a reply body that is not JSON, an output the
   * output schema rejects, and a failed `fetch`.
   */
  datatype RunError =
    | InvalidParams(fields: seq<ParamKey>)
    | BackendStatus(status: int, body: string)
    | MalformedReply(parseError: string)
    | InvalidOutput(outputFields: seq<string>)
    | Transport(message: string)

  /** The POST the runner makes: the runner URL and the validated parameters as its body. */
  datatype NotebookRequest = NotebookRequest(url: string, body: NotebookParams)

  datatype NotebookRun = NotebookRun(outcome: Result<NotebookOutput, RunError>, request: Option<NotebookRequest>)

  /**
   * `runColabNotebook`, with the environment value `runnerUrl` and the reply
   * the backend would give passed in.
   */
  function RunNotebook(raw: JsObject, runnerUrl: Option<string>, reply: BackendReply, isUrl: string -> bool): (run: NotebookRun)
    ensures ParseParams(raw).Err? ==> run == NotebookRun(Err(InvalidParams(ParseParams(raw).error)), None)
    ensures ParseParams(raw).Ok? && !TruthyText(runnerUrl) ==> run == NotebookRun(Ok(SimulatedOutput), None)
    ensures run.request.Some? <==> ParseParams(raw).Ok? && TruthyText(runnerUrl)
    ensures run.request.Some? ==>
      run.request.value == NotebookRequest(runnerUrl.value, ParseParams(raw).value) && Valid(run.request.value.body)
    ensures run.outcome.Ok? && run.request.Some? ==>
      && reply.Answered? && reply.ok && reply.json.Ok?
      && ParseOutput(reply.json.value, isUrl) == Ok(run.outcome.value)
    ensures run.request.Some? && reply.Answered? && reply.ok && reply.json.Ok? ==>
      run.outcome == match ParseOutput(reply.json.value, isUrl)
        case Ok(output) => Ok(output)
        case Err(fields) => Err(InvalidOutput(fields))
    ensures run.request.Some? && reply.Answered? && reply.ok && reply.json.Err? ==>
      run.outcome == Err(MalformedReply(reply.json.error))
    ensures run.request.Some? && reply.Answered? && !reply.ok ==>
      run.outcome == Err(BackendStatus(reply.status, reply.text))
    ensures run.request.Some? && reply.Unreachable? ==> run.outcome == Err(Transport(reply.message))
  {
    match ParseParams(raw)
    case Err(fields) => NotebookRun(Err(InvalidParams(fields)), None)
    case Ok(params) =>
      if !TruthyText(runnerUrl) then
        NotebookRun(Ok(SimulatedOutput), None)
      else
        var request := Some(NotebookRequest(runnerUrl.value, params));
        match reply
        case Unreachable(message) => NotebookRun(Err(Transport(message)), request)
        case Answered(ok, status, text, json) =>
          if !ok then NotebookRun(Err(BackendStatus(status, text)), request)
          else match json
            case Err(message) => NotebookRun(Err(MalformedReply(message)), request)
            case Ok(body) =>
              match ParseOutput(body, isUrl)
              case Err(fields) => NotebookRun(Err(InvalidOutput(fields)), request)
              case Ok(output) => NotebookRun(Ok(output), request)
  }

  /** Invalid parameters are rejected before the runner URL or the backend matter. */
  lemma ValidationPrecedesRunner(raw: JsObject, url1: Option<string>, url2: Option<string>,
                                 reply1: BackendReply, reply2: BackendReply, isUrl: string -> bool)
    requires ParseParams(raw).Err?
    ensures RunNotebook(raw, url1, reply1, isUrl) == RunNotebook(raw, url2, reply2, isUrl)
    ensures RunNotebook(raw, url1, reply1, isUrl).request.None?
  {
  }
}
