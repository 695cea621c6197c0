/**
 * The Pollinations API client: the credential it holds, the requests it builds and how it
 * turns each response into a result or an error. The network is not modelled: each
 * operation takes as input what `fetch` and the body readers produce, and returns the
 * request it would send (None when it sends nothing) together with its result.
 */
module Api {
  import opened Wrappers
  import opened JsText

  const BaseUrl := "https://gen.pollinations.ai/image"
  const ModelsUrl := "https://gen.pollinations.ai/image/models"
  const ChatUrl := "https://gen.pollinations.ai/v1/chat/completions"
  const ChatModel := "openai-fast"
  const SystemPrompt := "You are an expert prompt engineer for AI image generation. Enhance the user's prompt to be more descriptive, artistic, and detailed while maintaining the original intent. Keep the final result concise (under 75 words). Return ONLY the enhanced prompt text, no explanations."
  const EnhanceNeedsKey := "API Key is mandatory for prompt enhancement."
  const GenerateNeedsKey := "API Key is mandatory for image generation."
  const DefaultModel := "turbo"
  const DefaultDimension := 1024
  /** Random seeds are `Math.floor(Math.random() * SeedSpan)`. */
  const SeedSpan := 9999999
  /** At most this many characters of an error body go into the error message. */
  const SnippetLength := 100
  /** The JavaScript names of the methods the client class declares. */
  const ClientMethods: set<string> :=
    {"setApiKey", "fetchImageModels", "getFallbackModels", "improvePrompt", "generate"}

  /** One record of the model catalog (or of the fallback list). */
  datatype ModelRecord = ModelRecord(
    name: string,
    description: Option<string>,
    outputModalities: Option<seq<string>>)

  /** A JavaScript value as it can appear in a generation parameter. */
  datatype JsValue = Undefined | Null | Bool(b: bool) | Number(n: int) | Str(s: string)

  /** JavaScript truthiness: `undefined`, `null`, `false`, `0` and `''` are falsy. */
  predicate Truthy(v: JsValue) {
    match v
    case Undefined => false
    case Null => false
    case Bool(b) => b
    case Number(n) => n != 0
    case Str(s) => s != ""
  }

  /** `a || b` */
  function Or(a: JsValue, b: JsValue): JsValue {
    if Truthy(a) then a else b
  }

  /** `String(v)`, the conversion `URLSearchParams` applies to each value. */
  function ToJsString(v: JsValue): string {
    match v
    case Undefined => "undefined"
    case Null => "null"
    case Bool(b) => if b then "true" else "false"
    case Number(n) => Decimal(n)
    case Str(s) => s
  }

  datatype GenerationParams = GenerationParams(
    prompt: string, model: JsValue, width: JsValue, height: JsValue, seed: JsValue)

  /**
   * A request target: a fixed prefix, optionally one path segment that is
   * percent-encoded when rendered, and optionally a query list.
   */
  datatype Url = Url(prefix: string, segment: Option<string>, query: Option<seq<(string, string)>>)

  /**
   * The URL as a string, given the library encoders: `encodeComponent` stands for
   * `encodeURIComponent` and `encodeQuery` for `URLSearchParams.prototype.toString`.
   */
  function Render(u: Url, encodeComponent: string -> string, encodeQuery: seq<(string, string)> -> string): string {
    u.prefix
      + (match u.segment case Some(p) => "/" + encodeComponent(p) case None => "")
      + (match u.query case Some(q) => "?" + encodeQuery(q) case None => "")
  }

  datatype Verb = Get | Post
  datatype ChatMessage = ChatMessage(role: string, content: string)
  /** The JSON body of a chat completion request, before `JSON.stringify`. */
  datatype ChatBody = ChatBody(model: string, messages: seq<ChatMessage>)
  datatype Request = Request(verb: Verb, url: Url, headers: seq<(string, string)>, body: Option<ChatBody>)

  /** The errors the two authenticated operations raise. */
  datatype ApiError =
    | MissingKey(message: string)
    | HttpError(status: nat, message: string)
      /** `fetch` itself rejected; the reason comes from the browser. */
    | NetworkError(reason: string)
      /** Reading or decoding a successful response threw (bad JSON, a missing field). */
    | MalformedReply
      /** `response.blob()` rejected, or the `FileReader` reported an error; the reason comes from the browser. */
    | ReadError(reason: string)

  /** What `fetch` of the catalog yields; `records` is None when `response.json()` or the filter throws. */
  datatype CatalogReply =
    | CatalogUnreachable
    | CatalogResponse(status: nat, records: Option<seq<ModelRecord>>)

  /** `choices[i].message.content`, None when `message` is missing or `content` is not a string. */
  datatype ChatChoice = ChatChoice(content: Option<string>)

  /** What `fetch` of the chat endpoint yields; `choices` is None when the JSON has no `choices` array. */
  datatype ChatReply =
    | ChatUnreachable(reason: string)
    | ChatResponse(status: nat, choices: Option<seq<ChatChoice>>)

  /**
   * What `fetch` of an image yields: the body read as text (None when `response.text()`
   * throws) and the data URL that reading it as a blob produces.
   */
  datatype ImageReply =
    | ImageUnreachable(reason: string)
      /**
       * `bodyText` is what `response.text()` gives (`None` when it throws); `image` is the
       * data URL the `blob()` read and the `FileReader` produce, or why one of them failed.
       */
    | ImageResponse(status: nat, bodyText: Option<string>, image: Result<string, string>)

  /** The request an operation sends, if any, and its result. */
  datatype Exchange<T> = Exchange(sent: Option<Request>, result: T)

  /** `response.ok` */
  predicate StatusOk(status: nat) {
    200 <= status <= 299
  }

  /**
   * `draw * n`, summed one `draw` at a time; `ScaledIsProduct` shows it is the product.
   * The sum keeps the nonlinear product out of every proof that only needs the bounds.
   */
  function Scaled(draw: real, n: nat): (x: real)
    requires 0.0 <= draw < 1.0
    ensures 0.0 <= x <= n as real
    ensures n > 0 ==> x < n as real
  {
    if n == 0 then 0.0 else Scaled(draw, n - 1) + draw
  }

  lemma {:induction false} ScaledIsProduct(draw: real, n: nat)
    requires 0.0 <= draw < 1.0
    ensures Scaled(draw, n) == draw * (n as real)
  {
    if n > 0 {
      ScaledIsProduct(draw, n - 1);
      assert draw * ((n - 1) as real) + draw == draw * (n as real);
    }
  }

  /** `Math.floor(draw * n)` for a draw of `Math.random()`: an index below `n`. */
  function RandomBelow(draw: real, n: nat): (i: nat)
    requires 0.0 <= draw < 1.0
    ensures n > 0 ==> i < n
  {
    Scaled(draw, n).Floor
  }

  /** The index is the whole part of `draw * n`. */
  lemma RandomBelowIsFloor(draw: real, n: nat)
    requires 0.0 <= draw < 1.0
    ensures var i := RandomBelow(draw, n); (i as real) <= draw * (n as real) < (i as real) + 1.0
  {
    ScaledIsProduct(draw, n);
  }

  /** The catalog entry advertises image output (`output_modalities.includes('image')`). */
  predicate ProducesImages(m: ModelRecord) {
    m.outputModalities.Some? && "image" in m.outputModalities.value
  }

  /** `r` can be obtained from `s` by deleting elements. */
  ghost predicate Subsequence<T>(r: seq<T>, s: seq<T>)
    decreases |s|
  {
    if r == [] then true
    else if s == [] then false
    else (r[0] == s[0] && Subsequence(r[1..], s[1..])) || Subsequence(r, s[1..])
  }

  /**
   * The catalog filter: the image-producing records of `models`, in their order, each
   * as many times as it occurs there.
   */
  function ImageModels(models: seq<ModelRecord>): (r: seq<ModelRecord>)
    ensures Subsequence(r, models)
    ensures forall m :: multiset(r)[m] == if ProducesImages(m) then multiset(models)[m] else 0
    ensures forall k | 0 <= k < |r| :: ProducesImages(r[k])
  {
    if models == [] then []
    else
      var rest := ImageModels(models[1..]);
      assert models == [models[0]] + models[1..];
      if ProducesImages(models[0]) then [models[0]] + rest else rest
  }

  /** Every image-producing record of the catalog survives the filter. */
  lemma ImageModelsComplete(models: seq<ModelRecord>, m: ModelRecord)
    requires m in models && ProducesImages(m)
    ensures m in ImageModels(models)
  {
    assert multiset(models)[m] > 0;
    assert multiset(ImageModels(models))[m] > 0;
  }

  function Names(models: seq<ModelRecord>): (r: seq<string>)
    ensures |r| == |models| && forall k | 0 <= k < |models| :: r[k] == models[k].name
  {
    seq(|models|, k requires 0 <= k < |models| => models[k].name)
  }

  predicate DistinctNames(models: seq<ModelRecord>) {
    forall i, j | 0 <= i < j < |models| :: models[i].name != models[j].name
  }

  /** The fixed list served when the catalog cannot be used. */
  function FallbackModels(): seq<ModelRecord> {
    seq(10, FallbackEntry)
  }

  /** Entry `i` of the fallback list. */
  function FallbackEntry(i: int): ModelRecord {
    match i
    case 0 => ModelRecord("turbo", Some("SDXL Turbo - Single-step real-time generation"), None)
    case 1 => ModelRecord("flux", Some("Flux Schnell - Fast high-quality image generation"), None)
    case 2 => ModelRecord("zimage", Some("Z-Image Turbo - Fast 6B Flux with 2x upscaling"), None)
    case 3 => ModelRecord("seedream", Some("Seedream 4.0 - ByteDance ARK (better quality)"), None)
    case 4 => ModelRecord("seedream-pro", Some("Seedream 4.5 Pro - ByteDance ARK (4K, Multi-Image)"), None)
    case 5 => ModelRecord("gptimage", Some("GPT Image 1 Mini - OpenAI's image generation model"), None)
    case 6 => ModelRecord("gptimage-large", Some("GPT Image 1.5 - OpenAI's advanced image generation model"), None)
    case 7 => ModelRecord("kontext", Some("FLUX.1 Kontext - In-context editing & generation"), None)
    case 8 => ModelRecord("nanobanana", Some("NanoBanana - Gemini 2.5 Flash Image"), None)
    case _ => ModelRecord("nanobanana-pro", Some("NanoBanana Pro - Gemini 3 Pro Image (4K, Thinking)"), None)
  }


  /**
   * The fallback list has ten entries with pairwise distinct names, the default model
   * first; each has a description, and none advertises its output modalities.
   */
  lemma FallbackModelsShape()
    ensures var r := FallbackModels();
      && |r| == 10 && DistinctNames(r) && r[0].name == DefaultModel
      && forall k | 0 <= k < |r| :: r[k].description.Some? && r[k].outputModalities.None?
  {
    FallbackNamesDistinct();
  }

  /** The fallback names, in order. */
  const FallbackNameList: seq<string> := ["turbo", "flux", "zimage", "seedream", "seedream-pro", "gptimage", "gptimage-large", "kontext", "nanobanana", "nanobanana-pro"]

  lemma FallbackNamesListed()
    ensures forall i | 0 <= i < 10 :: FallbackModels()[i].name == FallbackNameList[i]
  {
  }

  /** No two listed names are equal: they differ in length or in their first letter. */
  lemma NamesListDistinct()
    ensures forall i, j | 0 <= i < j < |FallbackNameList| :: FallbackNameList[i] != FallbackNameList[j]
  {
    var names := FallbackNameList;
    forall i, j | 0 <= i < j < |names| ensures names[i] != names[j] {
      if |names[i]| == |names[j]| {
        assert names[i][0] != names[j][0];
      }
    }
  }

  /** No two fallback entries share a name. */
  lemma FallbackNamesDistinct()
    ensures DistinctNames(FallbackModels())
  {
    FallbackNamesListed();
    NamesListDistinct();
  }


  /** The catalog response was used as is (as opposed to falling back). */
  predicate CatalogUsable(reply: CatalogReply) {
    reply.CatalogResponse? && StatusOk(reply.status) && reply.records.Some?
  }

  /** `"API Error <status>"`, plus `": "` and at most 100 characters of a non-empty body. */
  function ImageErrorMessage(status: nat, bodyText: Option<string>): (msg: string)
    ensures var base := "API Error " + Decimal(status);
      && base <= msg && |msg| <= |base| + 2 + SnippetLength
      && (bodyText.None? || bodyText == Some("") ==> msg == base)
      && (bodyText.Some? && bodyText.value != "" ==>
            exists snippet :: msg == base + ": " + snippet
              && snippet <= bodyText.value && snippet == Take(bodyText.value, SnippetLength))
  {
    var base := "API Error " + Decimal(status);
    match bodyText
    case Some(text) =>
      if text != "" then
        var snippet := Take(text, SnippetLength);
        assert base <= base + ": " + snippet;
        base + ": " + snippet
      else base
    case None => base
  }

  /** The message for a non-ok chat response. */
  function ChatErrorMessage(status: nat): string {
    "Chat API Error: " + Decimal(status)
  }

  /** `data.choices[0].message.content.trim()`, or the TypeError it raises on a missing field. */
  function FirstChoiceText(choices: Option<seq<ChatChoice>>): (r: Result<string, ApiError>)
    ensures r.Success? <==> choices.Some? && |choices.value| > 0 && choices.value[0].content.Some?
    ensures r.Success? ==> r.value == Trim(choices.value[0].content.value)
    ensures r.Failure? ==> r.error == MalformedReply
  {
    match choices
    case Some(cs) =>
      if |cs| > 0 && cs[0].content.Some? then Success(Trim(cs[0].content.value)) else Failure(MalformedReply)
    case None => Failure(MalformedReply)
  }

  /** The client. Its only mutable state is the credential. */
  class PollinationsAPI {
    var apiKey: string
    var baseUrl: string
    var modelsUrl: string

    constructor (apiKey: string)
      ensures this.apiKey == apiKey && baseUrl == BaseUrl && modelsUrl == ModelsUrl
    {
      this.apiKey := apiKey;
      baseUrl := BaseUrl;
      modelsUrl := ModelsUrl;
    }

    method SetApiKey(key: string)
      modifies this`apiKey
      ensures apiKey == key
    {
      apiKey := key;
    }

    /** The header every authenticated request carries. */
    function Bearer(): (string, string)
      reads this
    {
      ("Authorization", "Bearer " + apiKey)
    }

    /** `getFallbackModels`: the fixed list, never empty. */
    function GetFallbackModels(): (r: seq<ModelRecord>)
      ensures r == FallbackModels()
      ensures |r| == 10 && DistinctNames(r)
    {
      FallbackModelsShape();
      FallbackModels()
    }

    /**
     * `fetchImageModels`: an unauthenticated GET of the catalog. A usable response is
     * filtered to its image models; anything else (no response, a non-ok status, a body
     * that does not decode) gives the fallback list and no error.
     */
    function FetchImageModels(reply: CatalogReply): (x: Exchange<seq<ModelRecord>>)
      reads this
      ensures x.sent == Some(Request(Get, Url(modelsUrl, None, None), [], None))
      ensures CatalogUsable(reply) ==> x.result == ImageModels(reply.records.value)
      ensures !CatalogUsable(reply) ==> x.result == FallbackModels()
    {
      var sent := Some(Request(Get, Url(modelsUrl, None, None), [], None));
      if CatalogUsable(reply) then Exchange(sent, ImageModels(reply.records.value))
      else Exchange(sent, GetFallbackModels())
    }

    /** The chat completion request `improvePrompt` sends for `prompt`. */
    function ChatRequest(prompt: string): Request
      reads this
    {
      Request(Post, Url(ChatUrl, None, None), [("Content-Type", "application/json"), Bearer()],
        Some(ChatBody(ChatModel, [ChatMessage("system", SystemPrompt), ChatMessage("user", prompt)])))
    }

    /**
     * `improvePrompt`: refuses without a key and sends nothing; otherwise posts the chat
     * request and returns the trimmed text of the first choice, or the error.
     */
    function ImprovePrompt(prompt: string, reply: ChatReply): (x: Exchange<Result<string, ApiError>>)
      reads this
      ensures apiKey == "" ==> x.sent == None && x.result == Failure(MissingKey(EnhanceNeedsKey))
      ensures apiKey != "" ==> x.sent == Some(ChatRequest(prompt))
      ensures apiKey != "" && reply.ChatUnreachable? ==> x.result == Failure(NetworkError(reply.reason))
      ensures apiKey != "" && reply.ChatResponse? && !StatusOk(reply.status) ==>
        x.result == Failure(HttpError(reply.status, ChatErrorMessage(reply.status)))
      ensures apiKey != "" && reply.ChatResponse? && StatusOk(reply.status) ==>
        x.result == FirstChoiceText(reply.choices)
    {
      if apiKey == "" then Exchange(None, Failure(MissingKey(EnhanceNeedsKey)))
      else
        var result := match reply
          case ChatUnreachable(reason) => Failure(NetworkError(reason))
          case ChatResponse(status, choices) =>
            if !StatusOk(status) then Failure(HttpError(status, ChatErrorMessage(status)))
            else FirstChoiceText(choices);
        Exchange(Some(ChatRequest(prompt)), result)
    }

    /**
     * The query of an image request: `model`, `width`, `height`, `seed`, `nologo`, in
     * that order, each falsy value replaced by its default; `seedDraw` is the
     * `Math.random()` draw used when the seed is falsy.
     */
    function ImageQuery(params: GenerationParams, seedDraw: real): (q: seq<(string, string)>)
      requires 0.0 <= seedDraw < 1.0
      ensures |q| == 5
      ensures q[0].0 == "model" && q[1].0 == "width" && q[2].0 == "height" && q[3].0 == "seed" && q[4] == ("nologo", "true")
      ensures q[0].1 == if Truthy(params.model) then ToJsString(params.model) else DefaultModel
      ensures q[1].1 == if Truthy(params.width) then ToJsString(params.width) else Decimal(DefaultDimension)
      ensures q[2].1 == if Truthy(params.height) then ToJsString(params.height) else Decimal(DefaultDimension)
      ensures Truthy(params.seed) ==> q[3].1 == ToJsString(params.seed)
      ensures !Truthy(params.seed) ==> exists s: nat :: s < SeedSpan && q[3].1 == Decimal(s)
    {
      var seed := RandomBelow(seedDraw, SeedSpan);
      [ ("model", ToJsString(Or(params.model, Str(DefaultModel)))),
        ("width", ToJsString(Or(params.width, Number(DefaultDimension)))),
        ("height", ToJsString(Or(params.height, Number(DefaultDimension)))),
        ("seed", ToJsString(Or(params.seed, Number(seed)))),
        ("nologo", "true") ]
    }

    /** The GET request `generate` sends. */
    function ImageRequest(params: GenerationParams, seedDraw: real): Request
      requires 0.0 <= seedDraw < 1.0
      reads this
    {
      Request(Get, Url(baseUrl, Some(params.prompt), Some(ImageQuery(params, seedDraw))), [Bearer()], None)
    }

    /**
     * `generate`: refuses without a key and sends nothing; otherwise sends the image
     * request and returns the data URL of the image, or the error.
     */
    function Generate(params: GenerationParams, seedDraw: real, reply: ImageReply): (x: Exchange<Result<string, ApiError>>)
      requires 0.0 <= seedDraw < 1.0
      reads this
      ensures apiKey == "" ==> x.sent == None && x.result == Failure(MissingKey(GenerateNeedsKey))
      ensures apiKey != "" ==> x.sent == Some(ImageRequest(params, seedDraw))
      ensures apiKey != "" && reply.ImageUnreachable? ==> x.result == Failure(NetworkError(reply.reason))
      ensures apiKey != "" && reply.ImageResponse? && !StatusOk(reply.status) ==>
        x.result == Failure(HttpError(reply.status, ImageErrorMessage(reply.status, reply.bodyText)))
      ensures apiKey != "" && reply.ImageResponse? && StatusOk(reply.status) && reply.image.Success? ==>
        x.result == Success(reply.image.value)
      ensures apiKey != "" && reply.ImageResponse? && StatusOk(reply.status) && reply.image.Failure? ==>
        x.result == Failure(ReadError(reply.image.error))
    {
      if apiKey == "" then Exchange(None, Failure(MissingKey(GenerateNeedsKey)))
      else
        var result := match reply
          case ImageUnreachable(reason) => Failure(NetworkError(reason))
          case ImageResponse(status, bodyText, image) =>
            if !StatusOk(status) then Failure(HttpError(status, ImageErrorMessage(status, bodyText)))
            else match image
              case Success(dataUrl) => Success(dataUrl)
              case Failure(reason) => Failure(ReadError(reason));
        Exchange(Some(ImageRequest(params, seedDraw)), result)
    }
  }

  /** The image request goes to `<baseUrl>/<encoded prompt>?<encoded query>`. */
  lemma ImageUrlShape(c: PollinationsAPI, params: GenerationParams, seedDraw: real,
                      encodeComponent: string -> string, encodeQuery: seq<(string, string)> -> string)
    requires 0.0 <= seedDraw < 1.0
    ensures Render(c.ImageRequest(params, seedDraw).url, encodeComponent, encodeQuery)
         == c.baseUrl + "/" + encodeComponent(params.prompt) + "?" + encodeQuery(c.ImageQuery(params, seedDraw))
  {
  }

  /** A fully specified request keeps every value: `model=turbo&width=512&height=512&seed=42&nologo=true`. */
  lemma ImageQueryExample(c: PollinationsAPI, seedDraw: real)
    requires 0.0 <= seedDraw < 1.0
    ensures c.ImageQuery(GenerationParams("cat", Str("turbo"), Number(512), Number(512), Number(42)), seedDraw)
         == [("model", "turbo"), ("width", "512"), ("height", "512"), ("seed", "42"), ("nologo", "true")]
  {
    assert Decimal(512) == "512";
    assert Decimal(42) == "42";
  }

  /** A seed of 0 is falsy, so it is replaced by a random one, just like a missing seed. */
  lemma ZeroSeedIsReplaced(c: PollinationsAPI, params: GenerationParams, seedDraw: real)
    requires 0.0 <= seedDraw < 1.0 && params.seed == Number(0)
    ensures c.ImageQuery(params, seedDraw)[3].1 == Decimal(RandomBelow(seedDraw, SeedSpan))
  {
  }

  /**
   * Both authenticated requests carry `Authorization: Bearer <key>` with the key the
   * client holds when it builds them; the chat request also declares a JSON body.
   */
  lemma BearerOnBothRequests(c: PollinationsAPI, prompt: string, params: GenerationParams, seedDraw: real)
    requires 0.0 <= seedDraw < 1.0
    ensures c.ChatRequest(prompt).headers == [("Content-Type", "application/json"), ("Authorization", "Bearer " + c.apiKey)]
    ensures c.ImageRequest(params, seedDraw).headers == [("Authorization", "Bearer " + c.apiKey)]
  {
  }

  /** The chat request posts the fixed instruction and the user's prompt to the fixed chat model. */
  lemma ChatRequestShape(c: PollinationsAPI, prompt: string)
    ensures var q := c.ChatRequest(prompt);
      && q.verb == Post && q.url == Url(ChatUrl, None, None)
      && q.body == Some(ChatBody(ChatModel, [ChatMessage("system", SystemPrompt), ChatMessage("user", prompt)]))
  {
  }

  /** A 403 answered with `forbidden` fails with `API Error 403: forbidden`. */
  lemma ForbiddenExample()
    ensures ImageErrorMessage(403, Some("forbidden")) == "API Error 403: forbidden"
  {
    assert Decimal(403) == "403";
  }

  /** Of a catalog with a text-only and an image model, only the image model is kept. */
  lemma CatalogFilterExample(a: ModelRecord, b: ModelRecord)
    requires a.outputModalities == Some(["text"]) && b.outputModalities == Some(["image", "text"])
    ensures ImageModels([a, b]) == [b]
  {
    assert [a, b][1..] == [b];
    assert [b][1..] == [];
  }
}
