# Leftover Recipe AI — a verified model of the app's logic

Leftover Recipe AI is a browser app. The user lists leftover ingredients and picks constraints: cooking time,
difficulty, meal type and spiciness. The app asks Google's Gemini model for three to five recipes, shows them as
cards with Unsplash photos, and lets the user ask Gemini to refine one recipe. The ingredient list, the constraints,
the API keys and the favourites live in the browser's `localStorage`.

This project models the app's logic in Dafny. Each source file has its own module:

- `Storage` (`src/utils/storage.js`). The `Store` class holds the string map behind `localStorage`, with a JSON
  codec and a flag for whether writes succeed. It has the key slots with their defaults, and adds or removes
  favourites.
- `GeminiService` (`src/services/geminiService.js`). This module covers:
  - the readiness of the client;
  - the two prompts, as lists of lines;
  - how a `json` fenced block is pulled out of a reply;
  - the fixed error messages wrapped around failures.
- `IngredientForm` (`src/components/IngredientForm.js`). The `Form` class holds the ingredient list. Adding trims
  the input and rejects blanks and duplicates; removing filters. Each change is saved to the store.
- `RecipeDisplay` (`src/components/RecipeDisplay.js`). The `Display` class holds the recipes, the index-to-image
  map that the loading loop fills, and the one expanded card. It also refines a single recipe.
- `UnsplashService` (`src/services/unsplashService.js`). This module covers:
  - the access key;
  - how a recipe title is cleaned into a search query;
  - how a search response becomes an image record;
  - the fallback image;
  - the download ping.
- `AppMain` (`src/main.js`). The `App` class holds the generate button's enabled state, the guards before
  generation, and the API-key dialog.

Some modules support the others:

- `Text`: `String.prototype.trim`, searching, and line splitting.
- `Seqs`: `Array.prototype.filter` and duplicate-freedom.
- `JsValues`: JSON values and JavaScript truthiness.
- `Wrappers`: `Option` and `Result`.

Foreign behaviour is passed in as parameters:

- `JSON.parse` and `JSON.stringify` are an abstract codec.
- A `localStorage` write failure is the store's `writable` flag.
- Whether the Gemini SDK constructor accepts a key is the `sdkAccepts` flag.
- The Gemini call is a function from client and request to a reply.
- The Unsplash `fetch` is a function from search request to response.

The regular expression `/```json\s*([\s\S]*?)\s*```/` is modelled exactly. It matches exactly when the leftmost
"```json" is followed somewhere by "```". The capture is the trimmed text between the opening fence and the
nearest closing fence after it. Trimming uses the same whitespace set as `\s`.

Two alert texts repeat their prefix, as written. The recipe service already prefixes its error messages with
"レシピの生成に失敗しました: " or "レシピの修正に失敗しました: ". `generateRecipes` in `main.js` and `refineRecipe` in
`RecipeDisplay.js` add the same prefix again. `AppMain.Generated` states this for generation.

## Model

| member | source | states |
|---|---|---|
| Text.Trim | src/components/IngredientForm.js:70 | `trim()`: the result is the input with its leading and trailing white space removed, and it neither starts nor ends with white space |
| Text.TrimEmptyIffBlank | src/components/IngredientForm.js:70-72 | the trimmed text is empty exactly when the input is all white space, so `if (!x.trim())` rejects exactly the blank inputs |
| Text.TrimPadded | src/services/geminiService.js:199 | white space around a text without white space at its ends is exactly what trimming removes |
| Text.IndexFrom | src/services/geminiService.js:199 | finds the first occurrence of a pattern at or after a position, or reports that none exists |
| Text.SplitJoinLinesExactly | src/services/geminiService.js:78-85 | lines without newlines joined by "\n" split back into the same lines, so a prompt built line by line can be read back |
| Text.DecimalRoundTrip | src/services/geminiService.js:168 | the decimal text of a step number reads back as that number |
| Seqs.Filter | src/components/IngredientForm.js:89 | `filter` keeps only passing elements and never grows the list |
| Seqs.FilterMembership | src/components/IngredientForm.js:89 | a value survives filtering exactly when it was present and passes |
| Seqs.FilterAppend | src/utils/storage.js:116 | filtering works piece by piece, so survivors keep their relative order |
| Seqs.FilterKeepsAll | src/utils/storage.js:116 | when every element passes, filtering changes nothing |
| Seqs.FilterNoDuplicates | src/components/IngredientForm.js:89 | filtering a list without duplicates leaves it without duplicates |
| Seqs.AppendFreshNoDuplicates | src/components/IngredientForm.js:74-79 | appending a value not yet present keeps the list free of duplicates |
| JsValues.Or | src/utils/storage.js:48 | `v \|\| d` is `v` when `v` is truthy and `d` otherwise |
| JsValues.AsStrings | src/components/IngredientForm.js:6 | a JSON value read as a list of strings re-encodes to that same value |
| JsValues.StringsRoundTrip | src/utils/storage.js:52-54 | a list of strings survives conversion to JSON and back |
| Storage.Read | src/utils/storage.js:14-21 | `get` is null when the key is absent, the stored text is empty or it fails to decode; otherwise it is exactly the decoded value |
| Storage.ReadAfterWrite | src/utils/storage.js:25-28 | after `set(k, v)`, `get(k)` is `v` for a value that round-trips through JSON, and every other key reads as before |
| Storage.ReadAfterRemove | src/utils/storage.js:36-39 | after `remove(k)`, `get(k)` is null and every other key reads as before |
| Storage.WithFavorite | src/utils/storage.js:107-111 | adding a favourite keeps every earlier favourite in place and appends the recipe with `savedAt`; a stored non-list fails |
| Storage.WithoutFavorite | src/utils/storage.js:114-117 | removing by title leaves no favourite with that title; a stored non-list or a null entry fails |
| Storage.WithoutFavoriteKeeps | src/utils/storage.js:116 | removing by title keeps exactly the favourites with another title, in order, piece by piece |
| Storage.Store.constructor | src/utils/storage.js:2 | the store starts with the given `localStorage` contents |
| Storage.Store.Get | src/utils/storage.js:14-21 | null for a missing, empty or unparsable entry; otherwise exactly the decoded stored text for that key |
| Storage.Store.Set | src/utils/storage.js:25-33 | `set` writes the encoded value under the key and reports success, or changes nothing and reports failure |
| Storage.Store.Remove | src/utils/storage.js:36-44 | `remove` deletes the key and reports success, or changes nothing and reports failure |
| Storage.Store.GetIngredients | src/utils/storage.js:47-49 | the stored ingredients when truthy, else `[]` |
| Storage.Store.SaveIngredients | src/utils/storage.js:52-54 | writes the ingredient list under `leftover_ingredients` |
| Storage.Store.GetConstraints | src/utils/storage.js:57-64 | the stored constraints when truthy, else `{any, any, any, medium}` |
| Storage.Store.SaveConstraints | src/utils/storage.js:67-69 | writes the constraints under `leftover_constraints` |
| Storage.Store.GetApiKey | src/utils/storage.js:72-74 | exactly the decoded value under `gemini_api_key`; null when it is missing, empty or unparsable |
| Storage.Store.SaveApiKey | src/utils/storage.js:77-79 | writes the key under `gemini_api_key` |
| Storage.Store.GetUnsplashKey | src/utils/storage.js:82-84 | exactly the decoded value under `unsplash_api_key`; null when it is missing, empty or unparsable |
| Storage.Store.SaveUnsplashKey | src/utils/storage.js:87-89 | writes the key under `unsplash_api_key` |
| Storage.Store.GetGeminiModel | src/utils/storage.js:92-94 | the stored model when truthy, else `gemini-2.5-flash`; an empty string also gives the default |
| Storage.Store.SaveGeminiModel | src/utils/storage.js:97-99 | writes the model under `gemini_model` |
| Storage.Store.GetFavorites | src/utils/storage.js:102-104 | the stored favourites when truthy, else `[]` |
| Storage.Store.AddFavorite | src/utils/storage.js:107-111 | the new favourites list is written exactly when the stored value is a list; otherwise nothing changes |
| Storage.Store.RemoveFavorite | src/utils/storage.js:114-117 | the filtered favourites list is written exactly when filtering can run; otherwise nothing changes |
| GeminiService.Bullets | src/services/geminiService.js:81-83 | one `- x` line per ingredient, in input order |
| GeminiService.ConditionLines | src/services/geminiService.js:87-123 | at most one line per field, and no line at all exactly for the default constraints `{any, any, any, medium}` |
| GeminiService.FilterParts | src/services/geminiService.js:87-123 | the condition lines carrying one field's label are that field's own optional line, because the four labels differ |
| GeminiService.ConditionLineFor | src/services/geminiService.js:87-123 | each constraint field gives its labelled line, with the mapped text, exactly when it is not the default |
| GeminiService.BulletsAreLines | src/services/geminiService.js:81-83 | ingredients without newlines give bullet lines without newlines |
| GeminiService.ConditionLinesAreLines | src/services/geminiService.js:87-123 | no condition line contains a newline |
| GeminiService.RecipePrompt | src/services/geminiService.js:77-150 | `buildRecipePrompt`: the prompt lines joined by line feeds, then the format text; its properties are the two lemmas below |
| GeminiService.RecipePromptBounds | src/services/geminiService.js:77-150 | the generation prompt opens with the introduction line and closes with the fixed format text |
| GeminiService.RecipePromptReadsBack | src/services/geminiService.js:77-150 | the generation prompt's lines are the introduction, then the ingredients header, the bullets in order, the conditions header, the condition lines, then the fixed format block |
| GeminiService.SpicyScenario | src/services/geminiService.js:115-123 | spiciness `spicy` with every other field at its default gives the single line `- 辛さ: 辛い` |
| GeminiService.NumberedSteps | src/services/geminiService.js:168 | step `i` is written as `i+1. step`, in order |
| GeminiService.RefinePromptIgnoresOtherFields | src/services/geminiService.js:153-193 | the refinement prompt does not depend on servings, nutrition or tips |
| GeminiService.StepNumbering | src/services/geminiService.js:168 | the `i`-th numbered step starts with the number `i+1` |
| GeminiService.NumberedStepsAreLines | src/services/geminiService.js:168 | steps without newlines give numbered lines without newlines |
| GeminiService.RefinePrompt | src/services/geminiService.js:153-193 | `buildRefinePrompt`: the prompt lines joined by line feeds, then the format text; its properties are the lemmas beside it |
| GeminiService.RefinePromptBounds | src/services/geminiService.js:153-193 | the refinement prompt opens with the instruction quoted in 「」 and closes with the fixed format text |
| GeminiService.RefinePromptReadsBack | src/services/geminiService.js:153-193 | the refinement prompt's lines are the quoted instruction, the title, description, time and difficulty, the seasonings and ingredients as bullets in order, the steps numbered from 1, then the fixed format block |
| GeminiService.FindFence | src/services/geminiService.js:199 | the regular expression matches exactly when a fenced block exists; the opening fence found is the leftmost, and the closing fence is the nearest one after it |
| GeminiService.TrimmedInnerHasNoFence | src/services/geminiService.js:199 | the captured text never contains a closing fence |
| GeminiService.CaptureBetween | src/services/geminiService.js:199 | the capture is the text between the fences with its white space trimmed: no leading or trailing white space, and no closing fence inside |
| GeminiService.CapturedJson | src/services/geminiService.js:199-200 | there is a capture exactly when a fenced block exists, and it is the text between the leftmost opening fence and the nearest closing fence, trimmed |
| GeminiService.ParseReply | src/services/geminiService.js:196-229 | with a fenced block only the capture is decoded, with no fallback; without one the whole text is decoded; a missing text or a decode failure gives the fixed parse error |
| GeminiService.NoBacktickNoFence | src/services/geminiService.js:199 | a text without a backtick has no fenced block |
| GeminiService.WrappedFence | src/services/geminiService.js:199 | in prose, then a fenced block, then anything, the fences found are the block's own |
| GeminiService.FencedReplyReadsBack | src/services/geminiService.js:199-202 | a trimmed JSON text wrapped in a fenced block after prose is captured exactly and parses like the bare JSON |
| GeminiService.Settle | src/services/geminiService.js:48-52 | a thrown call error gives the prefix plus its message; a parse failure gives the prefix plus the fixed parse error; a parsed value is returned |
| GeminiService.Service.constructor | src/services/geminiService.js:5-16 | the client is set from the stored key exactly when that key is truthy and the SDK accepts it |
| GeminiService.Service.Initialize | src/services/geminiService.js:19-27 | success exactly when the SDK accepts the key; a failure leaves the client as it was; afterwards the service is ready exactly when it succeeded or was ready before |
| GeminiService.Service.IsReady | src/services/geminiService.js:30-32 | ready exactly when a client exists |
| GeminiService.Service.GenerateRecipes | src/services/geminiService.js:35-53 | a service that is not ready fails with the fixed message before any request; otherwise one request with the generation prompt, settled with the generation prefix |
| GeminiService.Service.RefineRecipe | src/services/geminiService.js:56-74 | a service that is not ready fails with the fixed message before any request; otherwise one request with the refinement prompt, settled with the refinement prefix |
| UnsplashService.MatchAt | src/services/unsplashService.js:86-89 | the length of the first alternative, in preference order, that matches at the start of the text (no earlier one matches), or zero when none does |
| UnsplashService.RemoveAll | src/services/unsplashService.js:86-89 | `replace(/…/g, '')` never lengthens the text, and a match at the start shortens it by at least that match; what it removes is stated by `RemoveAllUnchanged`, `SinglePass` and `CleanPlainTitle` |
| UnsplashService.RemoveAllUnchanged | src/services/unsplashService.js:86-89 | removal leaves the text unchanged exactly when no alternative matches anywhere in it |
| UnsplashService.StripCookingWords | src/services/unsplashService.js:86-89 | the four removals in order never lengthen the title |
| UnsplashService.CleanRecipeTitle | src/services/unsplashService.js:83-94 | the query always ends with ` food dish`; before that comes the stripped title, trimmed, with no white space at either end |
| UnsplashService.CleanPlainTitle | src/services/unsplashService.js:83-94 | a title with none of the cooking words becomes the trimmed title plus ` food dish` |
| UnsplashService.RecipeWordsMatch | src/services/unsplashService.js:86 | `の?レシピ` matches the longer form `のレシピ` first |
| UnsplashService.EasyWordsMatch | src/services/unsplashService.js:87 | `簡単な?` takes three characters where `簡単な` follows, two where only `簡単` does |
| UnsplashService.SinglePass | src/services/unsplashService.js:86 | the global replace is one left-to-right pass, so `レレシピシピ` becomes `レシピ` |
| UnsplashService.ImageFromResponse | src/services/unsplashService.js:56-79 | there is an image exactly for an OK response with at least one result; it maps the first photo, with the title as alt text when the photo has none |
| UnsplashService.ImageOf | src/services/unsplashService.js:63-71 | a mapped photo always has a download URL, and its alt text is empty only when both the photo's description and the title are |
| UnsplashService.OnlyFirstPhotoCounts | src/services/unsplashService.js:62-63 | results that share their first photo give the same image |
| UnsplashService.AltTextPresent | src/services/unsplashService.js:67 | the alt text of a found image is never empty for a non-empty title |
| UnsplashService.FallbackImage | src/services/unsplashService.js:97-106 | the fallback image has the title as alt text and no download URL |
| UnsplashService.FallbackIsFixed | src/services/unsplashService.js:97-106 | fallback images differ only in their alt text |
| UnsplashService.Service.constructor | src/services/unsplashService.js:5-15 | the key is loaded from the store |
| UnsplashService.Service.SetAccessKey | src/services/unsplashService.js:18-21 | the key is set and saved; it counts as present exactly when it is not empty |
| UnsplashService.Service.HasAccessKey | src/services/unsplashService.js:24-26 | a null or empty key counts as no key; any non-empty key string counts |
| UnsplashService.Service.SearchRecipeImage | src/services/unsplashService.js:29-80 | without a truthy key, null and no request; otherwise one request for the cleaned title, mapped to the first photo or null |
| UnsplashService.Service.TrackDownload | src/services/unsplashService.js:109-121 | no ping for a missing or empty URL; otherwise a ping for that URL with the access key |
| IngredientForm.TrimIdempotent | src/components/IngredientForm.js:70-79 | trimming an already trimmed entry changes nothing, so every added entry stays trimmed |
| IngredientForm.AddAppendsOnly | src/components/IngredientForm.js:68-79 | adding keeps every earlier entry in place and appends at most the trimmed input, exactly when it is non-empty and not yet listed |
| IngredientForm.AddPreservesInvariant | src/components/IngredientForm.js:70-79 | adding keeps the list free of duplicates, with every entry non-empty and trimmed |
| IngredientForm.RemoveDropsOnly | src/components/IngredientForm.js:88-89 | removing drops every copy of the value and nothing else, piece by piece, so order is kept |
| IngredientForm.RemovePreservesInvariant | src/components/IngredientForm.js:88-89 | removing keeps the list free of duplicates and clean |
| IngredientForm.Loaded | src/components/IngredientForm.js:6 | the stored list of strings, or an empty list when the stored value is not one |
| IngredientForm.SavedListReloads | src/components/IngredientForm.js:6 | a list the form saved is the list a new form loads |
| IngredientForm.Form.constructor | src/components/IngredientForm.js:4-9 | the list starts as the one loaded from the store |
| IngredientForm.Form.AddIngredient | src/components/IngredientForm.js:68-86 | a blank or duplicate input changes and saves nothing; otherwise the trimmed input is appended and exactly the new list is saved; no-duplicates is preserved |
| IngredientForm.Form.RemoveIngredient | src/components/IngredientForm.js:88-93 | the list is filtered, the new list is saved, and no-duplicates is preserved |
| RecipeDisplay.ExpandLabel | src/components/RecipeDisplay.js:70-104 | a card's button reads `閉じる` exactly when that card is expanded, and `詳細を見る` otherwise |
| RecipeDisplay.ToggleOpensOnlyThatCard | src/components/RecipeDisplay.js:240-247 | toggling a card opens it exactly when it was closed, and every other card then shows as closed |
| RecipeDisplay.ToggleTwice | src/components/RecipeDisplay.js:240-247 | toggling a card twice closes every card, so the state comes back exactly when no other card was open |
| RecipeDisplay.ShownExactly | src/components/RecipeDisplay.js:21-36 | the cards updated are exactly the indices whose lookup found an image, in increasing order; a null lookup does not stop later indices |
| RecipeDisplay.PingsMatchDownloads | src/components/RecipeDisplay.js:27-29 | each download ping is for a found image's download URL, and each found image with a truthy download URL is pinged |
| RecipeDisplay.NoKeyNoImages | src/components/RecipeDisplay.js:21-36 | without an access key every index gets a null entry, and nothing is shown or pinged |
| RecipeDisplay.RefineOutcome | src/components/RecipeDisplay.js:250-258 | a refinement succeeds only with a ready service and an index that holds a recipe |
| RecipeDisplay.RefinedCardOpen | src/components/RecipeDisplay.js:240-262 | after a successful refinement the refined index exists and its card is the one open, showing `閉じる` while every other card shows `詳細を見る`; toggling it then closes every card |
| RecipeDisplay.CustomInstruction | src/components/RecipeDisplay.js:207-235 | the custom refine button and the Enter key request a refinement exactly when the box is not blank, and then with the trimmed, non-empty text |
| RecipeDisplay.CustomButtonAlert | src/components/RecipeDisplay.js:211-215 | the button alerts `修正指示を入力してください` exactly for a blank box, and otherwise a refinement is requested |
| RecipeDisplay.Display.constructor | src/components/RecipeDisplay.js:5-10 | no recipes, no images, no expanded card |
| RecipeDisplay.Display.LoadRecipeImages | src/components/RecipeDisplay.js:20-37 | every index, in order, gets its lookup result in the map, null included; the pings and the updated cards are as specified |
| RecipeDisplay.Display.DisplayRecipes | src/components/RecipeDisplay.js:12-18 | the list is replaced as a whole and its images are loaded; the expanded card is kept |
| RecipeDisplay.Display.ToggleRecipe | src/components/RecipeDisplay.js:240-247 | the expanded card becomes none if it was this index, and this index otherwise |
| RecipeDisplay.Display.Refinement | src/components/RecipeDisplay.js:250-258 | the recipe service's answer for the card's recipe, with an undefined recipe past the end of the list |
| RecipeDisplay.Display.RefineRecipe | src/components/RecipeDisplay.js:249-275 | a success replaces exactly that recipe and keeps its card expanded; a failure alerts with the prefixed error and changes nothing |
| AppMain.ButtonAfterAdd | src/main.js:55-58 | on `ingredientsChanged` after an add, the button is never disabled by the add, and a non-blank input enables it whenever the service is ready or a key is stored |
| AppMain.ButtonAfterRemove | src/main.js:55-58 | on `ingredientsChanged` after a removal, the button is never enabled by the removal, and removing the only ingredient disables it |
| AppMain.Generated | src/main.js:112-123 | a failed generation's error already starts with the generation prefix, which the alert then repeats |
| AppMain.KeySave.Alert | src/main.js:152-169 | `saveApiKey` ends without an alert exactly when the key was accepted; the alert is `APIキーを入力してください` exactly for a blank key and `APIキーの初期化に失敗しました` exactly for a rejected one |
| AppMain.App.constructor | src/main.js:15-29 | the components share the store and services, and the button is set by the predicate |
| AppMain.App.UpdateGenerateButtonState | src/main.js:78-88 | the button is disabled exactly when the enabling predicate fails |
| AppMain.App.GenerateRecipes | src/main.js:90-128 | no ingredients, then no ready service, each end in their alert before any request; a success shows the recipes; a failure alerts and leaves the display untouched |
| AppMain.App.SaveApiKey | src/main.js:148-170 | a key that is all white space changes nothing; otherwise the key is stored first and stays stored even if the SDK rejects it; only an accepted key sets the client and updates the button |

## Left out

- Rendering is left out: HTML templates, `innerHTML`, event listeners, toasts, `alert` display, the loading
  overlay, `updateRecipeCardImage`'s DOM work and `renderRecipeDetail`. An alert is modelled as the message the
  member returns.
- `checkApiKey`, `openSettings`, `closeSettings` and `showToast` in `main.js` only touch the DOM.
- `src/components/ConstraintsForm.js` only reads `<select>` values. Its option lists define the enumerations of the
  constraints, and the constraints reach `AppMain.App.GenerateRecipes` as a parameter.
- `vite.config.js` is build configuration.
- The network and the SDK are parameters:
  - the Gemini `generateContent` call;
  - the Unsplash search `fetch` and the download `fetch`;
  - whether `new GoogleGenAI` throws.
  A call is modelled as a function, so the same request always gets the same answer.
- `JSON.parse` and `JSON.stringify` are an abstract codec. Decoding a reply into recipes trusts the decoded shape;
  field-by-field validation of the model's JSON is not part of this model.
- Asynchronous ordering is not modelled. `displayRecipes` is not awaited in `main.js`, and interleaved clicks could
  change `recipes` while images load. The model runs each operation to completion.
- Strings are sequences of code points. JavaScript strings are UTF-16, and the difference only matters for
  characters outside the Basic Multilingual Plane, which the model does not distinguish.
- URL encoding of the search query and the exact request URLs are not modelled. A request is the record of its
  parameters.
- Photo records without `urls`, `user` or `links` (a `TypeError` caught in `searchRecipeImage`) are not modelled.
  Every photo has all its fields.
- `IngredientForm.Loaded`: a truthy stored value that is not a list of strings is read as an empty list. In the
  source it becomes the list field as it is.
- `RecipeDisplay.Display.RefineRecipe`: the re-render inside the `try` is not modelled. A refined recipe that
  `render` cannot draw (one without `seasonings`, say) throws after `recipes[index]` and `expandedRecipe` were
  already replaced, so the source alerts with the state changed; the model treats every decoded recipe as drawable.
- `RecipeDisplay.Display.RefineRecipe`: the error text for an index with no recipe is the V8 engine's wording,
  which other engines phrase differently.
- `Storage.Store.GetGeminiModel`: the stored model is never read by the recipe service, which always asks for
  `gemini-2.5-flash`.
- Aliasing of the returned ingredient array is not modelled: `getIngredients` returns a value.
- `Storage.Store.AddFavorite`: the `savedAt` timestamp is a parameter, standing for `new Date().toISOString()`.
