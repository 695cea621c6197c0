/**
 * The application controller: the module-level `state` object, the settings it keeps in
 * `localStorage`, and what the event handlers do to them. The DOM is not modelled; the
 * values a handler reads from form inputs are its parameters, and what it shows the user
 * (a toast, an image, an error panel) is its returned outcome.
 */
module App {
  import opened Wrappers
  import opened JsText
  import opened Api

  const HistoryKey := "vision_ai_history"
  const ApiKeyKey := "pollinations_api_key"
  const ModelKey := "vision_ai_model"
  const WidthKey := "vision_ai_width"
  const HeightKey := "vision_ai_height"
  /** The settings `resetToDefaults` removes; the history has its own slot. */
  const ResetKeys: set<string> := {ApiKeyKey, ModelKey, WidthKey, HeightKey}
  const HistoryCapacity := 10
  /** The history is cut to this many entries when storing it exceeds the quota. */
  const QuotaCapacity := 3
  const DefaultSize := "1024"
  /** Separator that ends the part of a model description shown in the dropdown. */
  const LabelSeparator := " - "

  datatype HistoryItem = HistoryItem(url: string, params: GenerationParams, timestamp: int)

  /** An entry of the model dropdown: the option's value and its visible text. */
  datatype ModelOption = ModelOption(value: string, caption: string)

  datatype GenerateOutcome =
    | NeedPrompt
    | NeedApiKey
      /** The image was shown and recorded in the history. */
    | Generated(url: string)
      /** The error panel shows the error's message. */
    | GenerationFailed(error: ApiError)
      /**
       * Storing the history failed even after the cut: the exception reaches the same
       * handler as a failed generation, so the error panel replaces the image.
       */
    | StorageFailed

  datatype MagicOutcome =
    | NeedBasePrompt
    | NeedKeyForMagic
      /** The prompt input now holds `text`. */
    | Enhanced(text: string)
    | MagicFailed(error: ApiError)

  /** `localStorage.getItem(key) || fallback` */
  function StoredOr(settings: map<string, string>, key: string, fallback: string): string {
    if key in settings && settings[key] != "" then settings[key] else fallback
  }

  /** The dropdown text of a model: its description up to the first `" - "`, trimmed. */
  function DropdownLabel(description: Option<string>): string {
    Trim(BeforeFirst(description.GetOr(""), LabelSeparator))
  }

  /** A label never contains the separator, is empty for a missing description, and is trimmed. */
  lemma DropdownLabelShape(description: Option<string>)
    ensures var caption := DropdownLabel(description);
      && FreeOf(caption, LabelSeparator)
      && (description.None? ==> caption == "")
      && (caption != [] ==> !IsJsWhitespace(caption[0]) && !IsJsWhitespace(caption[|caption| - 1]))
  {
    var head := BeforeFirst(description.GetOr(""), LabelSeparator);
    var caption := Trim(head);
    BeforeFirstFreeOf(description.GetOr(""), LabelSeparator);
    InfixFreeOf(head, LeadCount(head), LeadCount(head) + |caption|, LabelSeparator);
  }

  /** A description without a separator is shown whole, trimmed. */
  lemma DropdownLabelWithoutSeparator(d: string)
    requires forall i | 0 <= i < |d| :: !OccursAt(d, LabelSeparator, i)
    ensures DropdownLabel(Some(d)) == Trim(d)
  {
  }

  /** The option built for a catalog record. */
  function OptionFor(m: ModelRecord): ModelOption {
    ModelOption(m.name, DropdownLabel(m.description))
  }

  /** The dropdown for a model list: one option per model, in the list's order. */
  function Options(models: seq<ModelRecord>): (r: seq<ModelOption>)
    ensures |r| == |models|
    ensures forall k | 0 <= k < |models| :: r[k] == OptionFor(models[k])
  {
    if models == [] then [] else Options(models[..|models| - 1]) + [OptionFor(models[|models| - 1])]
  }

  /** `history.unshift(item)` followed by `history.slice(0, 10)`. */
  function Pushed(history: seq<HistoryItem>, item: HistoryItem): (r: seq<HistoryItem>)
    ensures r != [] && r[0] == item
    ensures |r| == if |history| < HistoryCapacity then |history| + 1 else HistoryCapacity
    ensures r[1..] <= history
  {
    var grown := [item] + history;
    var r := grown[..if |grown| < HistoryCapacity then |grown| else HistoryCapacity];
    assert r[1..] == history[..|r| - 1];
    r
  }

  /** `history.slice(0, 3)` */
  function Shrunk(history: seq<HistoryItem>): (r: seq<HistoryItem>)
    ensures r <= history
    ensures |r| == if |history| < QuotaCapacity then |history| else QuotaCapacity
  {
    Take(history, QuotaCapacity)
  }

  /** After a quota failure the new entry is still first, followed by at most two older ones. */
  lemma QuotaCutKeepsNewest(history: seq<HistoryItem>, item: HistoryItem)
    ensures var r := Shrunk(Pushed(history, item));
      r != [] && r[0] == item && |r| <= QuotaCapacity && r[1..] <= history
  {
    var p := Pushed(history, item);
    var r := Shrunk(p);
    assert r[1..] <= p[1..];
  }

  /** The history after adding `items` one after the other, none hitting the quota. */
  function PushAll(history: seq<HistoryItem>, items: seq<HistoryItem>): seq<HistoryItem>
    decreases |items|
  {
    if items == [] then history else PushAll(Pushed(history, items[0]), items[1..])
  }

  function Reversed<T>(s: seq<T>): (r: seq<T>)
    ensures |r| == |s|
    ensures forall k | 0 <= k < |s| :: r[k] == s[|s| - 1 - k]
  {
    if s == [] then [] else Reversed(s[1..]) + [s[0]]
  }

  function Min(a: int, b: int): int {
    if a < b then a else b
  }

  /**
   * After a run of additions the history holds the newest entries first: the added
   * items in reverse order, then the earlier history, cut to the capacity.
   */
  lemma {:induction false} PushAllNewestFirst(history: seq<HistoryItem>, items: seq<HistoryItem>)
    requires |history| <= HistoryCapacity || items != []
    ensures PushAll(history, items) == (Reversed(items) + history)[..Min(|items| + |history|, HistoryCapacity)]
    decreases |items|
  {
    if items != [] {
      var h1 := Pushed(history, items[0]);
      PushAllNewestFirst(h1, items[1..]);
      var all := Reversed(items) + history;
      var all1 := Reversed(items[1..]) + h1;
      var n := Min(|items| + |history|, HistoryCapacity);
      assert Min(|items[1..]| + |h1|, HistoryCapacity) == n;
      forall k | 0 <= k < n ensures all1[k] == all[k] {
        if k < |items| - 1 {
          assert all1[k] == items[1..][|items| - 2 - k];
        } else if k == |items| - 1 {
          assert all1[k] == h1[0];
        } else {
          assert all1[k] == h1[k - |items| + 1] == ([items[0]] + history)[k - |items| + 1];
        }
      }
    }
  }

  /** Fifteen generations leave ten entries, the latest first. */
  lemma FifteenGenerations(items: seq<HistoryItem>)
    requires |items| == 15
    ensures |PushAll([], items)| == HistoryCapacity
    ensures PushAll([], items)[0] == items[14]
  {
    PushAllNewestFirst([], items);
  }

  /** `localStorage.getItem('vision_ai_model')`, with a missing entry read as the (equally falsy) empty string. */
  function SavedModel(settings: map<string, string>): string {
    if ModelKey in settings then settings[ModelKey] else ""
  }

  /** `savedModel && modelExists`: the saved name is non-empty and one of the listed names. */
  predicate KeepsSaved(models: seq<ModelRecord>, saved: string) {
    saved != "" && saved in Names(models)
  }

  /**
   * The model `loadModels` settles on: the saved one when it is still listed, otherwise
   * the one at the random index. Either way it is one of the listed names.
   */
  function ChosenModel(models: seq<ModelRecord>, saved: string, draw: real): (name: string)
    requires models != [] && 0.0 <= draw < 1.0
    ensures name in Names(models)
    ensures KeepsSaved(models, saved) ==> name == saved
    ensures !KeepsSaved(models, saved) ==> name == models[RandomBelow(draw, |models|)].name
  {
    if KeepsSaved(models, saved) then saved
    else
      var i := RandomBelow(draw, |models|);
      assert Names(models)[i] == models[i].name;
      models[i].name
  }

  /**
   * The outcome, the history and the stored history once `handleGenerate` has the
   * client's result: a failure leaves both lists alone; a success is shown and goes
   * through `addToHistory`, whose failing retry turns into `StorageFailed`.
   */
  function AfterGeneration(history: seq<HistoryItem>, stored: Option<seq<HistoryItem>>,
                           result: Result<string, ApiError>, params: GenerationParams, now: int,
                           firstWriteFails: bool, retryWriteFails: bool)
    : (GenerateOutcome, seq<HistoryItem>, Option<seq<HistoryItem>>)
  {
    match result
    case Failure(e) => (GenerationFailed(e), history, stored)
    case Success(url) =>
      var pushed := Pushed(history, HistoryItem(url, params, now));
      var kept := if firstWriteFails then Shrunk(pushed) else pushed;
      if firstWriteFails && retryWriteFails then (StorageFailed, kept, stored)
      else (Generated(url), kept, Some(kept))
  }

  /** How many history writes a generation with this result makes. */
  function HistoryWritesFor(result: Result<string, ApiError>, firstWriteFails: bool): nat {
    if result.Failure? then 0 else if firstWriteFails then 2 else 1
  }

  /**
   * A successful generation puts its image first in a history of at most ten entries,
   * in front of a prefix of the earlier one, and stores exactly that history unless both
   * writes fail; a failed one changes neither list.
   */
  lemma GenerationRecordsNewestFirst(history: seq<HistoryItem>, stored: Option<seq<HistoryItem>>,
                                     result: Result<string, ApiError>, params: GenerationParams, now: int,
                                     firstWriteFails: bool, retryWriteFails: bool)
    ensures var r := AfterGeneration(history, stored, result, params, now, firstWriteFails, retryWriteFails);
      && (result.Failure? ==> r == (GenerationFailed(result.error), history, stored))
      && (result.Success? ==>
            && r.1 != [] && r.1[0] == HistoryItem(result.value, params, now)
            && |r.1| <= HistoryCapacity && r.1[1..] <= history
            && (r.0 == StorageFailed <==> firstWriteFails && retryWriteFails)
            && (r.0 == StorageFailed ==> r.2 == stored)
            && (r.0 != StorageFailed ==> r.0 == Generated(result.value) && r.2 == Some(r.1)))
  {
    if result.Success? && firstWriteFails {
      QuotaCutKeepsNewest(history, HistoryItem(result.value, params, now));
    }
  }

  /** `api.getAvailableModels()` as `loadModels` writes it. */
  const AvailableModelsCall := "getAvailableModels"

  /** How a call ends: it returns, or it throws a `TypeError`. */
  datatype Completion = Returned | ThrewTypeError

  /**
   * Calling a method of the client by name: a name the class does not declare reads as
   * `undefined`, and calling `undefined` throws a `TypeError`.
   */
  function CallClient(name: string): Completion {
    if name in ClientMethods then Returned else ThrewTypeError
  }

  /**
   * Whether `init`, as written, attaches its event listeners: they come after the
   * `loadModels()` call, so a throw there leaves the page without any.
   */
  function InitAttachesListeners(loadModels: Completion): bool {
    match loadModels
    case Returned => true
    case ThrewTypeError => false
  }

  /**
   * As written, `loadModels` asks the client for a method it does not declare, so it
   * throws before touching the state and `init` never attaches a listener.
   */
  lemma LoadModelsAsWrittenThrows()
    ensures CallClient(AvailableModelsCall) == ThrewTypeError
    ensures !InitAttachesListeners(CallClient(AvailableModelsCall))
  {
    assert AvailableModelsCall !in ClientMethods by {
      assert AvailableModelsCall[0] == 'g' && |AvailableModelsCall| == 18;
    }
  }

  /** The mutable application state. */
  class State {
    var isGenerating: bool
    var history: seq<HistoryItem>
    var apiKey: string
    var model: Option<string>
    var width: string
    var height: string
    var availableModels: seq<ModelRecord>
    /** The options of the model dropdown. */
    var modelOptions: seq<ModelOption>
    /** `generateBtn.disabled` */
    var generateDisabled: bool
    /** The string entries of `localStorage`. */
    var settings: map<string, string>
    /** The `vision_ai_history` entry of `localStorage`, as the list its JSON holds. */
    var storedHistory: Option<seq<HistoryItem>>
    /** How many times the history has been written to `localStorage` (successfully or not). */
    ghost var historyWrites: nat
    const api: PollinationsAPI

    /**
     * The controller forwards every key change to the client, the button follows the
     * flag, and the history slot of `localStorage` lives in `storedHistory` alone.
     */
    ghost predicate Valid()
      reads this`apiKey, this`generateDisabled, this`isGenerating, this`settings, api`apiKey
    {
      && api.apiKey == apiKey
      && generateDisabled == isGenerating
      && HistoryKey !in settings
    }

    /** Module load: the initial `state` read from `localStorage`, and the client built with its key. */
    constructor (saved: map<string, string>, savedHistory: Option<seq<HistoryItem>>)
      requires HistoryKey !in saved
      ensures Valid() && fresh(api) && api.baseUrl == BaseUrl && api.modelsUrl == ModelsUrl
      ensures !isGenerating && history == savedHistory.GetOr([])
      ensures apiKey == StoredOr(saved, ApiKeyKey, "")
      ensures model == if ModelKey in saved && saved[ModelKey] != "" then Some(saved[ModelKey]) else None
      ensures width == StoredOr(saved, WidthKey, DefaultSize) && height == StoredOr(saved, HeightKey, DefaultSize)
      ensures availableModels == [] && modelOptions == []
      ensures settings == saved && storedHistory == savedHistory && historyWrites == 0
    {
      var key := StoredOr(saved, ApiKeyKey, "");
      isGenerating := false;
      history := savedHistory.GetOr([]);
      apiKey := key;
      model := if ModelKey in saved && saved[ModelKey] != "" then Some(saved[ModelKey]) else None;
      width := StoredOr(saved, WidthKey, DefaultSize);
      height := StoredOr(saved, HeightKey, DefaultSize);
      availableModels := [];
      modelOptions := [];
      generateDisabled := false;
      settings := saved;
      storedHistory := savedHistory;
      historyWrites := 0;
      api := new PollinationsAPI(key);
    }

    /**
     * `loadModels` with the list the client handed over. An empty list changes nothing
     * but `availableModels`. Otherwise the dropdown is rebuilt and the model is chosen as
     * `ChosenModel` says; a model chosen at random is saved.
     */
    method LoadModels(models: seq<ModelRecord>, draw: real)
      requires Valid() && 0.0 <= draw < 1.0
      modifies this`availableModels, this`modelOptions, this`model, this`settings
      ensures Valid()
      ensures availableModels == models
      ensures models == [] ==> model == old(model) && modelOptions == old(modelOptions) && settings == old(settings)
      ensures models != [] ==> modelOptions == Options(models)
      ensures models != [] ==> model == Some(ChosenModel(models, SavedModel(old(settings)), draw))
      ensures models != [] ==>
        settings == if KeepsSaved(models, SavedModel(old(settings))) then old(settings)
                    else old(settings)[ModelKey := model.value]
    {
      availableModels := models;
      if |models| == 0 {
        return;
      }
      modelOptions := BuildOptions(models);
      SelectModel(models, draw);
    }

    /**
     * The selection step of `loadModels`: keep the saved model when it is listed,
     * otherwise pick one at random and save it.
     */
    method SelectModel(models: seq<ModelRecord>, draw: real)
      requires models != [] && 0.0 <= draw < 1.0
      modifies this`model, this`settings
      ensures model == Some(ChosenModel(models, SavedModel(old(settings)), draw))
      ensures settings == if KeepsSaved(models, SavedModel(old(settings))) then old(settings)
                          else old(settings)[ModelKey := model.value]
    {
      var saved := SavedModel(settings);
      var chosen := ChosenModel(models, saved, draw);
      model := Some(chosen);
      if !KeepsSaved(models, saved) {
        settings := settings[ModelKey := chosen];
      }
    }

    /**
     * `loadModels` with the static list it evidently means to get: the client's
     * `getFallbackModels()`. That list is never empty, so the safety check never fires:
     * the dropdown gets all ten entries and a model is always chosen from them.
     */
    method LoadStaticModels(draw: real)
      requires Valid() && 0.0 <= draw < 1.0
      modifies this`availableModels, this`modelOptions, this`model, this`settings
      ensures Valid()
      ensures availableModels == FallbackModels() && modelOptions == Options(FallbackModels())
      ensures |modelOptions| == 10
      ensures model == Some(ChosenModel(FallbackModels(), SavedModel(old(settings)), draw))
      ensures model.value in Names(FallbackModels())
      ensures var list := FallbackModels();
        settings == if KeepsSaved(list, SavedModel(old(settings))) then old(settings)
                    else old(settings)[ModelKey := model.value]
    {
      var models := api.GetFallbackModels();
      LoadModels(models, draw);
    }

    /** The `forEach` that fills the dropdown: one option per model, in order. */
    method BuildOptions(models: seq<ModelRecord>) returns (options: seq<ModelOption>)
      ensures options == Options(models)
    {
      options := [];
      var i := 0;
      while i < |models|
        invariant 0 <= i <= |models|
        invariant options == Options(models[..i])
      {
        assert models[..i + 1][..i] == models[..i];
        options := options + [OptionFor(models[i])];
        i := i + 1;
      }
      assert models[..i] == models;
    }

    /** Typing in the API key field. */
    method OnApiKeyInput(value: string)
      requires Valid()
      modifies this`apiKey, this`settings, api`apiKey
      ensures Valid()
      ensures apiKey == value && api.apiKey == value
      ensures settings == old(settings)[ApiKeyKey := value]
    {
      apiKey := value;
      settings := settings[ApiKeyKey := value];
      api.SetApiKey(value);
    }

    /** Picking a model in the dropdown. */
    method OnModelChange(value: string)
      modifies this`model, this`settings
      ensures model == Some(value) && settings == old(settings)[ModelKey := value]
    {
      model := Some(value);
      settings := settings[ModelKey := value];
    }

    method OnWidthInput(value: string)
      modifies this`width, this`settings
      ensures width == value && settings == old(settings)[WidthKey := value]
    {
      width := value;
      settings := settings[WidthKey := value];
    }

    method OnHeightInput(value: string)
      modifies this`height, this`settings
      ensures height == value && settings == old(settings)[HeightKey := value]
    {
      height := value;
      settings := settings[HeightKey := value];
    }

    /** `setLoading`: the flag and the generate button follow `loading`. */
    method SetLoading(loading: bool)
      modifies this`isGenerating, this`generateDisabled
      ensures isGenerating == loading && generateDisabled == loading
    {
      isGenerating := loading;
      generateDisabled := loading;
    }

    /**
     * `addToHistory`: the new entry goes first and the list is cut to 10, then stored.
     * When that write exceeds the quota the list is cut to 3 and written once more; if
     * that write fails too, `stored` is false (the exception leaves the function).
     */
    method AddToHistory(url: string, params: GenerationParams, now: int, firstWriteFails: bool, retryWriteFails: bool)
      returns (stored: bool)
      modifies this`history, this`storedHistory, this`historyWrites
      ensures var pushed := Pushed(old(history), HistoryItem(url, params, now));
        !firstWriteFails ==>
          && history == pushed && storedHistory == Some(pushed) && stored
          && historyWrites == old(historyWrites) + 1
      ensures var pushed := Pushed(old(history), HistoryItem(url, params, now));
        firstWriteFails ==>
          && history == Shrunk(pushed) && historyWrites == old(historyWrites) + 2
          && stored == !retryWriteFails
          && storedHistory == if retryWriteFails then old(storedHistory) else Some(Shrunk(pushed))
      ensures history != [] && history[0] == HistoryItem(url, params, now) && |history| <= HistoryCapacity
      ensures history[1..] <= old(history)
    {
      var item := HistoryItem(url, params, now);
      history := Pushed(history, item);
      historyWrites := historyWrites + 1;
      if !firstWriteFails {
        storedHistory := Some(history);
        stored := true;
      } else {
        history := Shrunk(history);
        historyWrites := historyWrites + 1;
        if !retryWriteFails {
          storedHistory := Some(history);
        }
        stored := !retryWriteFails;
      }
    }

    /**
     * `handleGenerate` with the form as it stands. A blank prompt or a missing key stops
     * it with nothing changed and nothing sent; otherwise `Generation` runs.
     */
    method HandleGenerate(promptValue: string, modelValue: string, widthValue: string, heightValue: string,
                          seedDraw: real, apiDraw: real, reply: ImageReply, now: int,
                          firstWriteFails: bool, retryWriteFails: bool)
      returns (outcome: GenerateOutcome, issued: Option<GenerationParams>, sent: Option<Request>)
      requires Valid() && 0.0 <= seedDraw < 1.0 && 0.0 <= apiDraw < 1.0
      modifies this`isGenerating, this`generateDisabled, this`history, this`storedHistory, this`historyWrites
      ensures Valid()
      ensures Trim(promptValue) == "" ==> outcome == NeedPrompt && issued == None && sent == None && unchanged(this)
      ensures Trim(promptValue) != "" && old(apiKey) == "" ==>
        outcome == NeedApiKey && issued == None && sent == None && unchanged(this)
      ensures Trim(promptValue) != "" && old(apiKey) != "" ==>
        && issued == Some(GenerationParams(Trim(promptValue), Str(modelValue), Str(widthValue), Str(heightValue),
                                           Number(RandomBelow(seedDraw, SeedSpan))))
        && 0 <= issued.value.seed.n < SeedSpan
        && !isGenerating && !generateDisabled
        && var x := api.Generate(issued.value, apiDraw, reply);
           && sent == x.sent && sent.Some?
           && (outcome, history, storedHistory)
              == AfterGeneration(old(history), old(storedHistory), x.result, issued.value, now,
                                 firstWriteFails, retryWriteFails)
           && historyWrites == old(historyWrites) + HistoryWritesFor(x.result, firstWriteFails)
    {
      var prompt := Trim(promptValue);
      if prompt == "" {
        return NeedPrompt, None, None;
      }
      if apiKey == "" {
        return NeedApiKey, None, None;
      }
      var params;
      outcome, params, sent := Generation(prompt, modelValue, widthValue, heightValue, seedDraw, apiDraw, reply, now,
                                          firstWriteFails, retryWriteFails);
      issued := Some(params);
    }

    /**
     * What `handleGenerate` does once its guards pass: set the loading flag, ask the
     * client for an image with a seed below 9999999, show and record a success in the
     * history (or show the error), and clear the flag again.
     */
    method Generation(prompt: string, modelValue: string, widthValue: string, heightValue: string,
                      seedDraw: real, apiDraw: real, reply: ImageReply, now: int,
                      firstWriteFails: bool, retryWriteFails: bool)
      returns (outcome: GenerateOutcome, params: GenerationParams, sent: Option<Request>)
      requires Valid() && apiKey != "" && 0.0 <= seedDraw < 1.0 && 0.0 <= apiDraw < 1.0
      modifies this`isGenerating, this`generateDisabled, this`history, this`storedHistory, this`historyWrites
      ensures Valid() && !isGenerating && !generateDisabled
      ensures params == GenerationParams(prompt, Str(modelValue), Str(widthValue), Str(heightValue),
                                         Number(RandomBelow(seedDraw, SeedSpan)))
      ensures 0 <= params.seed.n < SeedSpan
      ensures var x := api.Generate(params, apiDraw, reply);
        && sent == x.sent && sent.Some?
        && (outcome, history, storedHistory)
           == AfterGeneration(old(history), old(storedHistory), x.result, params, now, firstWriteFails, retryWriteFails)
        && historyWrites == old(historyWrites) + HistoryWritesFor(x.result, firstWriteFails)
    {
      SetLoading(true);
      params := GenerationParams(prompt, Str(modelValue), Str(widthValue), Str(heightValue),
                                 Number(RandomBelow(seedDraw, SeedSpan)));
      var x := api.Generate(params, apiDraw, reply);
      sent := x.sent;
      match x.result {
        case Success(url) =>
          var stored := AddToHistory(url, params, now, firstWriteFails, retryWriteFails);
          outcome := if stored then Generated(url) else StorageFailed;
        case Failure(e) =>
          outcome := GenerationFailed(e);
      }
      SetLoading(false);
    }

    /**
     * `handleMagicPrompt`: the same two guards, then the client's prompt enhancement.
     * Because the controller keeps the client's key equal to its own, the client's own
     * key guard never fires from here.
     */
    method HandleMagicPrompt(promptValue: string, reply: ChatReply) returns (outcome: MagicOutcome, sent: Option<Request>)
      requires Valid()
      ensures Trim(promptValue) == "" ==> outcome == NeedBasePrompt && sent == None
      ensures Trim(promptValue) != "" && apiKey == "" ==> outcome == NeedKeyForMagic && sent == None
      ensures Trim(promptValue) != "" && apiKey != "" ==>
        && sent == Some(api.ChatRequest(Trim(promptValue)))
        && !outcome.NeedBasePrompt? && !outcome.NeedKeyForMagic?
        && (outcome.MagicFailed? ==> !outcome.error.MissingKey?)
        && (var x := api.ImprovePrompt(Trim(promptValue), reply);
            outcome == if x.result.Success? then Enhanced(x.result.value) else MagicFailed(x.result.error))
        && (outcome.Enhanced? <==> reply.ChatResponse? && StatusOk(reply.status) && FirstChoiceText(reply.choices).Success?)
        && (outcome.Enhanced? ==> outcome.text == Trim(reply.choices.value[0].content.value))
    {
      var prompt := Trim(promptValue);
      if prompt == "" {
        return NeedBasePrompt, None;
      }
      if apiKey == "" {
        return NeedKeyForMagic, None;
      }
      var x := api.ImprovePrompt(prompt, reply);
      sent := x.sent;
      match x.result {
        case Success(text) => outcome := Enhanced(text);
        case Failure(e) => outcome := MagicFailed(e);
      }
    }

    /**
     * `resetToDefaults`: unless the user cancels, the saved settings and history are
     * removed, the key, sizes and history return to their defaults, the client's key is
     * cleared and the models are loaded again (picking a fresh random model, since the
     * saved one is gone).
     */
    method ResetToDefaults(confirmed: bool, models: seq<ModelRecord>, draw: real)
      requires Valid() && 0.0 <= draw < 1.0
      modifies this, api`apiKey
      ensures Valid()
      ensures !confirmed ==> unchanged(this) && unchanged(api)
      ensures confirmed ==>
        && apiKey == "" && api.apiKey == ""
        && width == DefaultSize && height == DefaultSize
        && history == [] && storedHistory == None
        && isGenerating == old(isGenerating) && historyWrites == old(historyWrites)
        && availableModels == models
    ensures confirmed && models == [] ==>
      model == old(model) && modelOptions == old(modelOptions) && settings == old(settings) - ResetKeys
    ensures confirmed && models != [] ==>
      && modelOptions == Options(models)
      && model == Some(ChosenModel(models, "", draw))
      && settings == (old(settings) - ResetKeys)[ModelKey := model.value]
    {
      if !confirmed {
        return;
      }
      settings := settings - ResetKeys;
      storedHistory := None;
      apiKey := "";
      width := DefaultSize;
      height := DefaultSize;
      history := [];
      api.SetApiKey("");
      assert ModelKey !in settings;
      LoadModels(models, draw);
    }

    /**
     * `resetToDefaults` as written: the settings, the history and the client's key are
     * cleared, then the `loadModels()` call throws, so the models, the chosen model and
     * the dropdown stay as they were and the exception leaves the handler.
     */
    method ResetToDefaultsAsWritten(confirmed: bool) returns (c: Completion)
      requires Valid()
      modifies this`settings, this`storedHistory, this`apiKey, this`width, this`height, this`history, api`apiKey
      ensures Valid()
      ensures !confirmed ==> c == Returned && unchanged(this) && unchanged(api)
      ensures confirmed ==>
        && c == ThrewTypeError
        && apiKey == "" && api.apiKey == ""
        && width == DefaultSize && height == DefaultSize
        && history == [] && storedHistory == None
        && settings == old(settings) - ResetKeys
      ensures availableModels == old(availableModels) && model == old(model) && modelOptions == old(modelOptions)
    {
      if !confirmed {
        return Returned;
      }
      settings := settings - ResetKeys;
      storedHistory := None;
      apiKey := "";
      width := DefaultSize;
      height := DefaultSize;
      history := [];
      api.SetApiKey("");
      LoadModelsAsWrittenThrows();
      c := CallClient(AvailableModelsCall);
    }
  }
}
