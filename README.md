# VisionAI: the Pollinations client and the application state, in Dafny

VisionAI is a browser application: the user types a prompt and picks an image model.
It calls the Pollinations HTTP API for an image and keeps the results in a short
history in `localStorage`. This project models the two pieces of sequential logic in it:

- **`PollinationsAPI`** (`api.dfy`, module `Api`). The client holds one mutable credential.
  It refuses both authenticated calls when the key is empty. It filters the model catalog
  to image models and falls back to a fixed list of ten on any failure. It builds the
  chat and image requests: URL shape, query order, the falsy-value defaults of
  JavaScript's `||`, and the bearer header. It also formats the error messages and
  extracts the trimmed first-choice text of a chat reply.
- **The application `state`** (`app.dfy`, module `App`, class `State`). This covers the
  initial state read from `localStorage` and model selection on load, including the
  dropdown labels cut at `" - "`. It also covers the guards of the generate and
  magic-prompt handlers, the loading flag, the bounded newest-first history with its
  quota fallback, the settings inputs, and reset to defaults.

Supporting modules: `Wrappers` (`Option`, `Result`) and `JsText`. `JsText` holds
JavaScript's `trim` with the full ECMAScript whitespace set, the first piece of `split`,
`substring(0, n)` and `String(n)` for integers, with a proven read-back of the digits.

Nothing the source gets from outside is computed here. Each operation takes it as an
input:

- what `fetch` returned: a datatype covering no response, a status, and the body as
  text, JSON, or a data URL or the reason reading it failed;
- each `Math.random()` draw: a real in `[0, 1)`;
- `Date.now()`;
- whether each `localStorage` write of the history exceeds the quota;
- the values in the form inputs.

Every client operation returns the request it would send, with `None` when it sends
nothing, together with its result. That makes "fails before any request is issued"
something the contracts can state. `encodeURIComponent` and `URLSearchParams` serialisation
are function parameters of `Api.Render`. JSON serialisation is left abstract: a stored
history is held as the list it encodes.

Three behaviours of the code are worth knowing before reading the contracts:

- `loadModels` (app.js:49) calls `api.getAvailableModels()`, a method `PollinationsAPI`
  does not declare. As written, that call throws a `TypeError` before the state changes.
  `init` then stops at app.js:88, before any event listener is attached, and a confirmed
  `resetToDefaults` throws at app.js:368, after the state and storage are already
  cleared. This is recorded in the Findings table below. `LoadModels` models the function as
  it evidently means to work, on the list that call should return.
- `fetchImageModels` can return `[]`: a usable catalog with no image models filters to
  the empty list. Only the fallback path guarantees ten entries.
- A seed of `0` drawn by `handleGenerate` is falsy. `generate` replaces it with a fresh
  random seed (`Api.ZeroSeedIsReplaced`), while the history records seed `0`.

## Model

| member | source | states |
|---|---|---|
| `JsText.Trim` | app.js:169 | `trim()` returns the infix left after removing whitespace from both ends. Everything removed is ECMAScript whitespace, and the result neither starts nor ends with whitespace. |
| `JsText.TrimEmptyIffWhitespace` | app.js:169-173 | A prompt is rejected as blank exactly when all of its characters are whitespace. |
| `JsText.TrimIdempotent` | api.js:92 | Trimming a trimmed text changes nothing. |
| `JsText.BeforeFirst` | app.js:63 | `split(sep)[0]` is a prefix of the text with no occurrence of `sep` starting inside it. It is the whole text, or `sep` starts right after it. |
| `JsText.Take` | api.js:128 | `substring(0, n)` is a prefix of length `min(n, len)`. |
| `JsText.NatDigits` | api.js:125 | The decimal form of a status is a non-empty digit string with no leading zero. |
| `JsText.NatDigitsRoundTrip` | api.js:125 | Reading the decimal digits of `n` back gives `n`. |
| `Api.RandomBelow` | app.js:76 | `Math.floor(Math.random() * n)` is below `n` whenever `n > 0`. |
| `Api.RandomBelowIsFloor` | app.js:189 | That index is the whole part of `draw * n`. |
| `Api.ScaledIsProduct` | app.js:76 | The product `draw * n` the index is cut from is summed one `draw` at a time, and the sum equals the product. |
| `Api.ImageModels` | api.js:27-30 | The filter keeps the records whose `output_modalities` is present and contains `'image'`. It keeps them in their original order (a subsequence), each exactly as often as it occurs, and keeps nothing else. |
| `Api.ImageModelsComplete` | api.js:27-30 | Every image record of the catalog is in the result. |
| `Api.CatalogFilterExample` | api.js:27-30 | Of a `["text"]` model and an `["image","text"]` model, only the second is kept. |
| `Api.FallbackModelsShape` | api.js:44-55 | The fallback list has 10 entries with pairwise distinct names, `turbo` first. Each has a description and none lists output modalities. |
| `Api.FallbackNamesDistinct` | api.js:44-55 | No two fallback entries share a name. |
| `Api.PollinationsAPI.GetFallbackModels` | api.js:43-56 | `getFallbackModels` returns the fallback list: 10 entries with distinct names, so it is never empty. |
| `Api.ImageErrorMessage` | api.js:124-131 | The error starts with `API Error <status>` and is at most 102 characters longer. Without a body, or when reading it throws, it is exactly that base. With a non-empty body it is the base, `": "` and the first 100 characters of the body. |
| `Api.ForbiddenExample` | api.js:124-130 | A 403 with body `forbidden` fails with `API Error 403: forbidden`. |
| `Api.FirstChoiceText` | api.js:91-92 | Success exactly when `choices[0].message.content` is present; the result is that content trimmed. Any missing field is a malformed-reply error. |
| `Api.PollinationsAPI.constructor` | api.js:5-9 | The client starts with the given key and the fixed image and catalog URLs. |
| `Api.PollinationsAPI.SetApiKey` | api.js:11-13 | After `setApiKey(k)` the client's key is `k`. |
| `Api.PollinationsAPI.FetchImageModels` | api.js:18-38 | An unauthenticated GET of the catalog URL. An ok, decodable reply gives exactly its image models. No response, a non-ok status or an undecodable body gives the fallback list, and no error escapes. |
| `Api.PollinationsAPI.ImprovePrompt` | api.js:61-93 | With an empty key it fails with `API Key is mandatory for prompt enhancement.` and sends nothing. Otherwise it sends the chat request. A non-ok status gives `Chat API Error: <status>` and a network failure is passed on. An ok reply gives the trimmed first-choice text or a malformed-reply error. |
| `Api.ChatRequestShape` | api.js:66-85 | The chat request is a POST to the chat endpoint, sending the fixed system instruction and the user prompt to `openai-fast`. |
| `Api.BearerOnBothRequests` | api.js:117-122 | Both requests carry `Authorization: Bearer <key>` with the key the client holds at call time. |
| `Api.PollinationsAPI.ImageQuery` | api.js:104-112 | The query keys are `model`, `width`, `height`, `seed`, `nologo=true`, in that order. A falsy model becomes `turbo` and a falsy width or height becomes `1024`. A truthy seed is kept; a falsy one (0 included) becomes a random number below 9999999. |
| `Api.ImageUrlShape` | api.js:115 | The image URL is `baseUrl + "/" + encodeURIComponent(prompt) + "?" + query`. |
| `Api.ImageQueryExample` | api.js:106-112 | `cat`, `turbo`, 512, 512, 42 give `model=turbo, width=512, height=512, seed=42, nologo=true`. |
| `Api.ZeroSeedIsReplaced` | api.js:110 | A seed of 0 is replaced by the random draw. |
| `Api.PollinationsAPI.Generate` | api.js:99-131 | With an empty key it fails with `API Key is mandatory for image generation.` and sends nothing. Otherwise it sends the image request. A non-ok status fails with `ImageErrorMessage` and a network failure is passed on. An ok reply gives the data URL of the image. When `response.blob()` rejects or the `FileReader` errors, it fails with that reason. |
| `App.DropdownLabelShape` | app.js:63 | A dropdown label never contains `" - "`, is empty for a missing description, and has no whitespace at either end. |
| `App.DropdownLabelWithoutSeparator` | app.js:63 | A description without `" - "` is shown whole, trimmed. |
| `App.Pushed` | app.js:260-262 | After `unshift` and `slice(0, 10)`, the new item is first and the length is `min(old + 1, 10)`. The rest is a prefix of the previous history, in order. |
| `App.Shrunk` | app.js:268 | The quota cut keeps a prefix of length `min(len, 3)`. |
| `App.QuotaCutKeepsNewest` | app.js:264-270 | After a quota failure the new item is still first, with at most 3 entries, the rest a prefix of the earlier history. |
| `App.PushAllNewestFirst` | app.js:259-262 | After any non-empty run of additions, the history is the added items newest first, then the earlier history, cut to 10. The earlier history may be of any length, such as a longer one loaded from storage. |
| `App.FifteenGenerations` | app.js:262 | After 15 generations from an empty history, 10 entries remain and the latest is first. |
| `App.ChosenModel` | app.js:68-79 | The chosen model is always one of the listed names. It is the saved name whenever that name is non-empty and listed; otherwise it is the name at the random index. |
| `App.State.constructor` | app.js:6-16 | The initial state: flag off, history and settings from storage (`getItem(k) \|\| default`), `model` null unless saved, no models yet and an empty dropdown, and the client built with the same key and the fixed image and catalog URLs. |
| `App.Options` | app.js:58-66 | The dropdown has one option per model, in the list's order, with the model's name as value and its label as text. |
| `App.State.LoadModels` | app.js:47-82 | An empty list changes nothing but `availableModels`. Otherwise the dropdown is `Options(models)` and the model is `ChosenModel`. A randomly chosen model is saved; a kept one leaves storage as it was. |
| `App.State.BuildOptions` | app.js:58-66 | The dropdown loop builds exactly `Options(models)`. |
| `App.State.LoadStaticModels` | app.js:47-82 | `loadModels` on the static list it evidently means, `getFallbackModels()`. The list is never empty, so the dropdown gets all 10 entries and a listed model is always chosen. Storage keeps the saved model when it is listed, and otherwise records the chosen one. |
| `App.LoadModelsAsWrittenThrows` | app.js:49 | As written, `getAvailableModels` is not a client method, so `loadModels` throws and `init` attaches no listener. |
| `App.State.SelectModel` | app.js:68-79 | The model becomes `ChosenModel` for the saved name. Storage gains the model only when it was picked at random. |
| `App.State.OnApiKeyInput` | app.js:110-114 | A key typed in is stored in the state, saved, and forwarded to the client. |
| `App.State.OnModelChange` | app.js:116-119 | The picked model is stored in the state and saved. |
| `App.State.OnWidthInput` | app.js:121-124 | The width is stored in the state and saved. |
| `App.State.OnHeightInput` | app.js:126-129 | The height is stored in the state and saved. |
| `App.State.SetLoading` | app.js:211-213 | `setLoading(b)` leaves `isGenerating == b == generateBtn.disabled`. |
| `App.State.AddToHistory` | app.js:259-272 | The history becomes `Pushed` and is written once. If that write hits the quota, it is cut with `Shrunk` and written exactly once more; when the retry fails too, storage keeps its old value and the call fails. The new item is always first, and the length is at most 10. |
| `App.GenerationRecordsNewestFirst` | app.js:192-208 | After the client answers: a failure changes neither the history nor the stored history. A success puts the image first in a history of at most 10 entries, in front of a prefix of the earlier history. That history is stored unless both writes fail, and exactly then the outcome is `StorageFailed`. |
| `App.State.HandleGenerate` | app.js:168-209 | A prompt blank after trimming, or an empty key, returns with nothing changed and nothing sent. Otherwise it passes the trimmed prompt, the form values and the seed `Math.floor(draw * 9999999)`. It sends the client's request, ends with the flag cleared, and leaves the outcome, history and stored history as `AfterGeneration` gives them for the client's result. |
| `App.State.Generation` | app.js:182-208 | After the guards: the request is the client's for these parameters. The outcome, history and stored history are `AfterGeneration` of the client's result, with one history write per attempt. The flag and the button end cleared. |
| `App.State.HandleMagicPrompt` | app.js:142-166 | The same two guards, sending nothing. Otherwise it sends the chat request for the trimmed prompt. The outcome is the client's text as `Enhanced`, or the client's error as `MagicFailed`. It succeeds exactly when the reply is ok and has a first-choice text, and the client's missing-key error cannot occur here. |
| `App.State.ResetToDefaultsAsWritten` | app.js:337-368 | `resetToDefaults` as written. Cancelled, it returns and changes nothing. Confirmed, the key (the client's too) becomes `''`, the sizes `'1024'`, the history `[]` and the stored history is gone. Storage loses exactly the key, model, size and history entries. Then the `loadModels()` call throws a `TypeError`, so the models, the chosen model and the dropdown stay as they were. |
| `App.State.ResetToDefaults` | app.js:337-372 | Cancelled, it changes nothing. Confirmed, the key (the client's too) becomes `''`, the sizes `'1024'` and the history `[]`; the count of history writes is unchanged. Storage loses exactly the key, model, size and history entries. The client's URLs stay as they were. For an empty list the model and the dropdown stay as they were. Otherwise the dropdown is rebuilt, and the model becomes `ChosenModel` with no saved name, so the one at the random index, and is saved. |

## Left out

- DOM and presentation are not modelled: element lookup, `innerHTML`, icons, confetti, toasts and their timers, scrolling, the history grid and its click-to-restore. The form values a handler reads are its parameters, and what it shows is its returned outcome.
- `fetch`, `response.json()`, `.text()`, `.blob()` and `FileReader.readAsDataURL` are outside code. Their outcomes are inputs. The image is an opaque data-URL string, or the reason the read failed.
- `downloadImage`, `copyImageLink` and `shareImage` are not modelled: they only call the clipboard, share and download APIs.
- `encodeURIComponent`, `URLSearchParams` serialisation and `JSON.stringify`/`JSON.parse` are library encoders, so they are not re-specified. The URL encoders are parameters of `Api.Render`, the chat body is a datatype, and the stored history is the list it encodes.
- JSON.parse of a stored history that is not a JSON array of items is not modelled. The constructor takes the decoded list, or none.
- Quota failures of the settings writes are not modelled. Only the history write has a quota outcome, the only `try` around a `localStorage` write (app.js:264).
- `Math.random()` is a real in `[0, 1)`, and floating-point rounding of the product is not modelled.
- `async`/`await` interleavings are not modelled: each handler runs to completion with the response as an input. Only the `isGenerating` flag and the disabled button carry the in-flight convention.
- Numbers in generation parameters are integers. Fractions and `NaN` (which is falsy) are not modelled.
- `Api.ImageErrorMessage`: the snippet counts Unicode scalar values, whereas JavaScript's `substring` counts UTF-16 code units. The two differ only for text with characters outside the Basic Multilingual Plane.
- `App.State.HandleMagicPrompt`: writing the enhanced text into the prompt input is a DOM effect. It is stated as the `Enhanced` outcome carrying the text.
- The messages of errors the browser makes (network `TypeError`, JSON `SyntaxError`, missing-field `TypeError`, quota `DOMException`) are not known. They appear as the `NetworkError` reason supplied with the reply, as `MalformedReply`, or as the `StorageFailed` outcome.
- `init` is modelled only as far as whether it reaches its listeners (the function `App.InitAttachesListeners`, stated by `App.LoadModelsAsWrittenThrows`). Apart from DOM wiring, it only calls `loadModels` and `renderHistory`.
- `App.State.LoadModels` assumes a `getAvailableModels` that returns a list, and it takes that list as an input. As written, the call throws (see the Findings table).
- `App.State.ResetToDefaults` is the corrected handler: it ends with the models loaded from the given list. The throw of the as-written `loadModels` at its end is stated by `App.State.ResetToDefaultsAsWritten`.
- `App.State.constructor`: the dropdown's initial options come from the page's HTML, which is not modelled, so the model starts it empty (`modelOptions == []`). The constructor requires that the stored settings have no history entry, because that slot is read separately into `storedHistory`.

## Findings

| source | as written | input that shows it | evidently intended | confidence | as-written member | corrected member |
|---|---|---|---|---|---|---|
| app.js:49 | `loadModels` calls `api.getAvailableModels()`, which `PollinationsAPI` does not declare. The call throws a `TypeError`, so `init` stops before attaching any listener, and `resetToDefaults` throws after clearing the settings. | any page load | load the static model list (`getFallbackModels()`), never empty, and choose a model from it | not executed | `App.LoadModelsAsWrittenThrows` | `App.State.LoadStaticModels` |
