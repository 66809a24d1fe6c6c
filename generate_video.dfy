/**
 * The `/api/generateVideo` POST handler: check the prompt, then the backend
 * location, forward `{prompt}` to `<location>/generate-video`, pass a
 * successful backend JSON through, and turn every failure into status 500
 * with body `{error: message}`.
 */
module GenerateVideo {
  import opened Js

  const PromptRequiredMessage: string := "El 'prompt' es requerido en el cuerpo de la solicitud."
  const MissingConfigMessage: string :=
    "La variable de entorno COLAB_SERVER_URL no est\U{e1} configurada en Vercel."
  const BackendErrorPrefix: string := "Error del servidor de Colab: "
  const GeneratePath: string := "/generate-video"

  /**
   * What the `fetch` to the backend produced: a transport failure, or a
   * response with its `ok` flag, its body text, and what parsing that text
   * as JSON gives (a document of type `Doc`, or the parser's error message).
   */
  datatype BackendReply<Doc> =
    | NetworkFailure(message: string)
    | Reply(ok: bool, text: string, json: Result<Doc, string>)

  datatype ResponseBody<Doc> = Data(doc: Doc) | ErrorBody(error: string)

  datatype Response<Doc> = Response(status: int, body: ResponseBody<Doc>)

  /** The request forwarded to the backend: its URL and its JSON body. */
  datatype Forwarded = Forwarded(url: string, body: JsObject)

  /** The handler's response, and the request it forwarded, if it got that far. */
  datatype Handled<Doc> = Handled(response: Response<Doc>, forwarded: Option<Forwarded>)

  /** The catch-all: status 500 with `{error: message}`. */
  function Failure<Doc>(message: string): (r: Response<Doc>)
    ensures r.status == 500 && r.body == ErrorBody(message)
  {
    Response(500, ErrorBody(message))
  }

  /** `detail || errorData` for a `detail` that, when present, is a string. */
  function DetailOr(detail: Option<string>, errorData: string): string {
    if TruthyText(detail) then detail.value else errorData
  }

  /** How a block of statements ends: it runs to its end, or it throws an error with a message. */
  datatype Completion = Normal | Thrown(message: string)

  /**
   * The inner `try` block run on a non-ok reply. `JSON.parse` of the body
   * throws the parser's error when the text is not JSON; reading `detail`
   * from the document throws when the document is `null` (`detail` gives
   * `Err` then); otherwise the block throws the prefixed detail, or the
   * prefixed raw body when the detail is falsy. No path reaches its end.
   */
  function InnerTry<Doc>(errorData: string, parsed: Result<Doc, string>,
                         detail: Doc -> Result<Option<string>, string>): (c: Completion)
    ensures c.Thrown?
    ensures parsed.Err? ==> c == Thrown(parsed.error)
    ensures parsed.Ok? && detail(parsed.value).Err? ==> c == Thrown(detail(parsed.value).error)
    ensures parsed.Ok? && detail(parsed.value).Ok? ==>
      c == Thrown(BackendErrorPrefix + DetailOr(detail(parsed.value).value, errorData))
  {
    match parsed
    case Err(parseError) => Thrown(parseError)
    case Ok(doc) =>
      match detail(doc)
      case Err(typeError) => Thrown(typeError)
      case Ok(d) => Thrown(BackendErrorPrefix + DetailOr(d, errorData))
  }

  /** The `catch` after it: whatever the block threw is replaced by the prefixed raw body. */
  function CatchRethrow(c: Completion, errorData: string): (c': Completion)
    ensures c'.Normal? <==> c.Normal?
    ensures c.Thrown? ==> c' == Thrown(BackendErrorPrefix + errorData)
  {
    match c
    case Normal => Normal
    case Thrown(_) => Thrown(BackendErrorPrefix + errorData)
  }

  /**
   * The whole `if (!response.ok)` block: the inner `try` and its `catch`.
   * Since the inner block always throws, the block always throws, and what
   * it throws is the prefixed raw body.
   */
  function NonOkBlock<Doc>(errorData: string, parsed: Result<Doc, string>,
                           detail: Doc -> Result<Option<string>, string>): (c: Completion)
    ensures c == Thrown(BackendErrorPrefix + errorData)
  {
    CatchRethrow(InnerTry(errorData, parsed, detail), errorData)
  }

  /** What the non-ok block throws depends neither on whether the body parses nor on its `detail`. */
  lemma BackendErrorIgnoresDetail<Doc>(errorData: string, parsed1: Result<Doc, string>, parsed2: Result<Doc, string>,
                                       detail1: Doc -> Result<Option<string>, string>,
                                       detail2: Doc -> Result<Option<string>, string>)
    ensures NonOkBlock(errorData, parsed1, detail1) == NonOkBlock(errorData, parsed2, detail2)
  {
  }

  /**
   * A body with a truthy `detail` different from the raw text: the inner
   * block throws the detail, and the `catch` replaces it by the raw body.
   */
  lemma DetailThrownThenReplaced(doc: int)
    ensures var detail := (d: int) => Ok(Some("boom"));
      && InnerTry("{\"detail\":\"boom\"}", Ok(doc), detail) == Thrown(BackendErrorPrefix + "boom")
      && NonOkBlock("{\"detail\":\"boom\"}", Ok(doc), detail) == Thrown(BackendErrorPrefix + "{\"detail\":\"boom\"}")
  {
  }

  /** What the handler makes of an ok reply's JSON: the document passed through, or the parse error. */
  function PassThrough<Doc>(json: Result<Doc, string>): (r: Response<Doc>)
    ensures r.status == 200 <==> json.Ok?
    ensures json.Ok? ==> r.body == Data(json.value)
    ensures json.Err? ==> r == Failure(json.error)
  {
    match json
    case Err(message) => Failure(message)
    case Ok(doc) => Response(200, Data(doc))
  }

  /**
   * `POST(req)`, with what `req.json()` gives (`Err` when it throws), the
   * `COLAB_SERVER_URL` value, the backend's reply and the `detail` accessor
   * (`Err` when reading it throws) passed in. The reply's `json` is what
   * parsing its body text gives, for `JSON.parse` and `response.json()` alike.
   */
  function HandlePost<Doc>(body: Result<JsObject, string>, colabUrl: Option<string>,
                           reply: BackendReply<Doc>, detail: Doc -> Result<Option<string>, string>): (h: Handled<Doc>)
    ensures h.response.status == 200 || h.response.status == 500
    ensures h.response.status == 200 <==> h.response.body.Data?
    ensures h.forwarded.Some? <==>
      body.Ok? && TruthyField(Get(body.value, "prompt")) && TruthyText(colabUrl)
    ensures h.forwarded.Some? ==>
      h.forwarded.value == Forwarded(colabUrl.value + GeneratePath, map["prompt" := body.value["prompt"]])
    ensures body.Err? ==> h.response == Failure(body.error)
    ensures body.Ok? && !TruthyField(Get(body.value, "prompt")) ==> h.response == Failure(PromptRequiredMessage)
    ensures body.Ok? && TruthyField(Get(body.value, "prompt")) && !TruthyText(colabUrl) ==>
      h.response == Failure(MissingConfigMessage)
    ensures h.response.body.Data? ==>
      h.forwarded.Some? && reply.Reply? && reply.ok && reply.json == Ok(h.response.body.doc)
    ensures h.forwarded.Some? && reply.Reply? && reply.ok ==>
      h.response == match reply.json
        case Ok(doc) => Response(200, Data(doc))
        case Err(message) => Failure(message)
    ensures h.forwarded.Some? && reply.Reply? && !reply.ok ==>
      h.response == Failure(BackendErrorPrefix + reply.text)
    ensures h.forwarded.Some? && reply.NetworkFailure? ==> h.response == Failure(reply.message)
  {
    match body
    case Err(message) => Handled(Failure(message), None)
    case Ok(obj) =>
      var prompt := Get(obj, "prompt");
      if !TruthyField(prompt) then Handled(Failure(PromptRequiredMessage), None)
      else if !TruthyText(colabUrl) then Handled(Failure(MissingConfigMessage), None)
      else
        var forwarded := Forwarded(colabUrl.value + GeneratePath, map["prompt" := prompt.value]);
        match reply
        case NetworkFailure(message) => Handled(Failure(message), Some(forwarded))
        case Reply(ok, text, json) =>
          if !ok then
            match NonOkBlock(text, json, detail)
            case Thrown(message) => Handled(Failure(message), Some(forwarded))
            case Normal => Handled(PassThrough(json), Some(forwarded))
          else
            Handled(PassThrough(json), Some(forwarded))
  }

  /** The prompt check comes first: without a truthy prompt, neither the configuration nor the backend matters. */
  lemma PromptCheckedFirst<Doc>(obj: JsObject, url1: Option<string>, url2: Option<string>,
                                reply1: BackendReply<Doc>, reply2: BackendReply<Doc>, detail: Doc -> Result<Option<string>, string>)
    requires !TruthyField(Get(obj, "prompt"))
    ensures HandlePost(Ok(obj), url1, reply1, detail) == HandlePost(Ok(obj), url2, reply2, detail)
    ensures HandlePost(Ok(obj), url1, reply1, detail) == Handled(Failure(PromptRequiredMessage), None)
  {
  }

  /** Only the prompt is forwarded: `maxIterations` and every other field of the request are dropped. */
  lemma OnlyPromptForwarded<Doc>(obj: JsObject, colabUrl: Option<string>, reply: BackendReply<Doc>, detail: Doc -> Result<Option<string>, string>)
    requires HandlePost(Ok(obj), colabUrl, reply, detail).forwarded.Some?
    ensures var body := HandlePost(Ok(obj), colabUrl, reply, detail).forwarded.value.body;
      body.Keys == {"prompt"} && body["prompt"] == obj["prompt"]
  {
  }
}
