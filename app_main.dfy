/**
 * The application object of src/main.js: the generate button's enabled
 * state, the guards in front of recipe generation, and saving the API key
 * from the settings dialog. The components and services are the shared
 * instances; the dialog's text box, the SDK's acceptance of a key and the
 * network are parameters.
 */
module AppMain {
  import opened Wrappers
  import opened Text
  import opened JsValues
  import Storage
  import GeminiService
  import UnsplashService
  import IngredientForm
  import RecipeDisplay

  const NO_INGREDIENTS_ALERT := "食材を1つ以上追加してください"
  const NO_API_KEY_ALERT := "Gemini APIキーが設定されていません。設定から入力してください。"
  const BLANK_KEY_ALERT := "APIキーを入力してください"
  const INIT_FAILED_ALERT := "APIキーの初期化に失敗しました"

  /** `updateGenerateButtonState`: the button is enabled exactly when there is an ingredient and either the
      service is ready or a truthy key is stored. */
  predicate GenerateEnabled(ingredients: seq<string>, ready: bool, storedKey: Json) {
    |ingredients| > 0 && (ready || Truthy(storedKey))
  }

  /** An `ingredientsChanged` event after an add: adding never disables the button, and a non-blank input enables
      it whenever the service is ready or a key is stored. */
  lemma ButtonAfterAdd(ingredients: seq<string>, input: string, ready: bool, storedKey: Json)
    ensures GenerateEnabled(ingredients, ready, storedKey) ==> GenerateEnabled(IngredientForm.AfterAdd(ingredients, input), ready, storedKey)
    ensures !AllSpace(input) && (ready || Truthy(storedKey)) ==> GenerateEnabled(IngredientForm.AfterAdd(ingredients, input), ready, storedKey)
  {
    IngredientForm.AddAppendsOnly(ingredients, input);
    TrimEmptyIffBlank(input);
  }

  /** An `ingredientsChanged` event after a removal: removing never enables the button, and removing the only
      ingredient left disables it. */
  lemma ButtonAfterRemove(ingredients: seq<string>, x: string, ready: bool, storedKey: Json)
    ensures GenerateEnabled(IngredientForm.AfterRemove(ingredients, x), ready, storedKey) ==> GenerateEnabled(ingredients, ready, storedKey)
    ensures ingredients == [x] ==> !GenerateEnabled(IngredientForm.AfterRemove(ingredients, x), ready, storedKey)
  {
    var r := IngredientForm.AfterRemove(ingredients, x);
    if ingredients == [x] && r != [] {
      IngredientForm.RemoveDropsOnly(ingredients, x, ingredients, []);
    }
  }

  /** How `generateRecipes()` ends: an alert (the guards, or a failed generation) or recipes on display. */
  datatype Generation = Alerted(message: string) | Displayed(recipes: seq<GeminiService.Recipe>)

  /** How `saveApiKey()` ends. */
  datatype KeySave = BlankKey | Saved | InitFailed {
    /** The alert `saveApiKey()` shows; a saved key is announced by a toast instead. */
    function Alert(): (r: Option<string>)
      ensures r.None? <==> this == Saved
      ensures r == Some(BLANK_KEY_ALERT) <==> this == BlankKey
      ensures r == Some(INIT_FAILED_ALERT) <==> this == InitFailed
    {
      match this
      case BlankKey => Some(BLANK_KEY_ALERT)
      case Saved => None
      case InitFailed => Some(INIT_FAILED_ALERT)
    }
  }

  /** The recipe service's answer to a generation request, as a value (the service's own method is proved equal). */
  function Generated(client: Option<Json>, ingredients: seq<string>, constraints: GeminiService.Constraints,
                     call: (Json, GeminiService.Request) -> GeminiService.Reply,
                     decode: string -> Option<seq<GeminiService.Recipe>>): (r: Result<seq<GeminiService.Recipe>, string>)
    requires client.Some?
    ensures r.Failure? ==> exists e :: r.error == GeminiService.GENERATE_FAILED + e
  {
    GeminiService.Settle(GeminiService.GENERATE_FAILED,
      call(client.value, GeminiService.Request(GeminiService.GEMINI_MODEL, GeminiService.RecipePrompt(ingredients, constraints))),
      decode)
  }

  /** `App`: the shared pieces and the generate button's `disabled` flag. */
  class App {
    const store: Storage.Store
    const gemini: GeminiService.Service
    const form: IngredientForm.Form
    const display: RecipeDisplay.Display
    var generateDisabled: bool

    /** `init()`: builds the components over the shared store and services, then sets the button. */
    constructor(store: Storage.Store, gemini: GeminiService.Service, unsplash: UnsplashService.Service)
      ensures this.store == store && this.gemini == gemini
      ensures form.store == store && form.ingredients == IngredientForm.Loaded(store.GetIngredients())
      ensures display.gemini == gemini && display.unsplash == unsplash && display.recipes == []
      ensures generateDisabled == !GenerateEnabled(form.ingredients, gemini.IsReady(), store.GetApiKey())
    {
      this.store := store;
      this.gemini := gemini;
      form := new IngredientForm.Form(store);
      display := new RecipeDisplay.Display(gemini, unsplash);
      generateDisabled := true;
      new;
      UpdateGenerateButtonState();
    }

    /** `updateGenerateButtonState()`. */
    method UpdateGenerateButtonState()
      modifies this
      ensures generateDisabled == !GenerateEnabled(form.ingredients, gemini.IsReady(), store.GetApiKey())
    {
      var ingredients := form.GetIngredients();
      var hasApiKey := gemini.IsReady() || Truthy(store.GetApiKey());
      if |ingredients| > 0 && hasApiKey {
        generateDisabled := false;
      } else {
        generateDisabled := true;
      }
    }

    /** `generateRecipes()`: no ingredient or no ready service ends in an alert before any request; otherwise the
        recipes are shown on success, and on failure the alert carries the error and the display is untouched. */
    method GenerateRecipes(constraints: GeminiService.Constraints,
                           call: (Json, GeminiService.Request) -> GeminiService.Reply,
                           decode: string -> Option<seq<GeminiService.Recipe>>,
                           fetch: UnsplashService.SearchRequest -> UnsplashService.SearchResponse)
      returns (outcome: Generation)
      modifies display
      ensures form.ingredients == [] ==> outcome == Alerted(NO_INGREDIENTS_ALERT)
      ensures form.ingredients != [] && !gemini.IsReady() ==> outcome == Alerted(NO_API_KEY_ALERT)
      ensures form.ingredients != [] && gemini.IsReady() ==>
        outcome == match Generated(gemini.client, form.ingredients, constraints, call, decode)
          case Success(recipes) => Displayed(recipes)
          case Failure(error) => Alerted(GeminiService.GENERATE_FAILED + error)
      ensures outcome.Alerted? ==> display.recipes == old(display.recipes) && display.recipeImages == old(display.recipeImages)
      ensures outcome.Displayed? ==> display.recipes == outcome.recipes
      ensures display.expandedRecipe == old(display.expandedRecipe)
    {
      var ingredients := form.GetIngredients();
      if |ingredients| == 0 {
        return Alerted(NO_INGREDIENTS_ALERT);
      }
      if !gemini.IsReady() {
        return Alerted(NO_API_KEY_ALERT);
      }
      var r := gemini.GenerateRecipes(ingredients, constraints, call, decode);
      if r.Success? {
        var _, _ := display.DisplayRecipes(r.value, fetch);
        outcome := Displayed(r.value);
      } else {
        outcome := Alerted(GeminiService.GENERATE_FAILED + r.error);
      }
    }

    /** `saveApiKey()` with the dialog holding `input`: a blank key changes nothing; otherwise the trimmed key is
        stored first and stays stored whether or not the service accepts it, and only an accepted key updates the
        button. */
    method SaveApiKey(input: string, sdkAccepts: bool) returns (outcome: KeySave)
      modifies this, store, gemini
      ensures outcome == if Trim(input) == "" then BlankKey else if sdkAccepts then Saved else InitFailed
      ensures outcome == BlankKey <==> AllSpace(input)
      ensures outcome == BlankKey ==> store.items == old(store.items) && gemini.client == old(gemini.client)
      ensures outcome != BlankKey ==> store.items == if store.writable
        then Storage.Written(old(store.items), store.codec, Storage.API_KEY, JStr(Trim(input)))
        else old(store.items)
      ensures outcome == Saved ==> gemini.client == Some(JStr(Trim(input)))
      ensures outcome == InitFailed ==> gemini.client == old(gemini.client)
      ensures outcome == Saved ==> generateDisabled == !GenerateEnabled(form.ingredients, true, store.GetApiKey())
      ensures outcome != Saved ==> generateDisabled == old(generateDisabled)
      ensures form.ingredients == old(form.ingredients)
    {
      TrimEmptyIffBlank(input);
      var apiKey := Trim(input);
      if apiKey == "" {
        return BlankKey;
      }
      var _ := store.SaveApiKey(apiKey);
      var success := gemini.Initialize(JStr(apiKey), sdkAccepts);
      if success {
        UpdateGenerateButtonState();
        outcome := Saved;
      } else {
        outcome := InitFailed;
      }
    }
  }
}
