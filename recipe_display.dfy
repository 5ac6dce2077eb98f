/**
 * The state behind src/components/RecipeDisplay.js: the shown recipes, the
 * index-to-image map the loading loop fills, and the one expanded card.
 * Rendering is left out; what a render shows is only modelled for the
 * expand button's label. The two services are the application's shared
 * instances, and the network calls they make are function parameters.
 */
module RecipeDisplay {
  import opened Wrappers
  import opened JsValues
  import Text
  import GeminiService
  import UnsplashService

  type Recipe = GeminiService.Recipe
  type Image = UnsplashService.Image
  type DownloadPing = UnsplashService.DownloadPing

  const OPEN_LABEL := "詳細を見る"
  const CLOSE_LABEL := "閉じる"
  const BLANK_INSTRUCTION_ALERT := "修正指示を入力してください"

  /** What the engine says when `buildRefinePrompt` reads `recipe.title` of an index with no recipe. */
  const NO_RECIPE_ERROR := "Cannot read properties of undefined (reading 'title')"

  // ---------------------------------------------------------------------
  // Expanding a card

  /** `expandedRecipe` after `toggleRecipe(index)`. */
  function Toggled(expanded: Option<int>, index: int): Option<int> {
    if expanded == Some(index) then None else Some(index)
  }

  /** The expand button's label on card `index`. */
  function ExpandLabel(expanded: Option<int>, index: int): (caption: string)
    ensures caption == CLOSE_LABEL <==> expanded == Some(index)
    ensures caption == OPEN_LABEL <==> expanded != Some(index)
  {
    if expanded == Some(index) then CLOSE_LABEL else OPEN_LABEL
  }

  /** Toggling a card opens it exactly when it was closed, and then every other card shows as closed:
      at most one card is open. */
  lemma ToggleOpensOnlyThatCard(expanded: Option<int>, index: int, other: int)
    ensures ExpandLabel(Toggled(expanded, index), index) == CLOSE_LABEL <==> ExpandLabel(expanded, index) == OPEN_LABEL
    ensures other != index ==> ExpandLabel(Toggled(expanded, index), other) == OPEN_LABEL
  {
  }

  /** Toggling the same card twice closes every card; it restores the state exactly when no other card was open. */
  lemma ToggleTwice(expanded: Option<int>, index: int)
    ensures Toggled(Toggled(expanded, index), index) == if expanded == Some(index) then expanded else None
    ensures Toggled(Toggled(expanded, index), index) == expanded <==> expanded.None? || expanded == Some(index)
  {
  }

  // ---------------------------------------------------------------------
  // Loading images

  /** What `searchRecipeImage(title)` yields for the service's key: null without a key, else the mapped response. */
  function Lookup(key: Json, title: string, fetch: UnsplashService.SearchRequest -> UnsplashService.SearchResponse): Option<Image> {
    if Truthy(key) then UnsplashService.ImageFromResponse(fetch(UnsplashService.SearchFor(key, title)), title) else None
  }

  /** The lookup result for every recipe, by index. */
  function Images(key: Json, recipes: seq<Recipe>, fetch: UnsplashService.SearchRequest -> UnsplashService.SearchResponse)
    : seq<Option<Image>>
  {
    seq(|recipes|, i requires 0 <= i < |recipes| => Lookup(key, recipes[i].title, fetch))
  }

  /** The `recipeImages` entries the loop sets: index `i` to the `i`-th lookup, null included. */
  function ImageMap(images: seq<Option<Image>>): map<int, Option<Image>> {
    map i: int | 0 <= i < |images| :: images[i]
  }

  /** Whether an image carries a truthy download URL, which the loop reports to Unsplash. */
  predicate HasDownload(image: Option<Image>) {
    image.Some? && image.value.downloadUrl.Some? && image.value.downloadUrl.value != ""
  }

  /** The download pings the loop sends, in index order. */
  function Pings(key: Json, images: seq<Option<Image>>): seq<DownloadPing> {
    if images == [] then []
    else
      var last := images[|images| - 1];
      Pings(key, images[..|images| - 1])
        + (if HasDownload(last) then [UnsplashService.DownloadPing(last.value.downloadUrl.value, key)] else [])
  }

  /** The cards whose image the loop updates, in index order: those whose lookup gave an image. */
  function Shown(images: seq<Option<Image>>): seq<int> {
    if images == [] then []
    else Shown(images[..|images| - 1]) + (if images[|images| - 1].Some? then [|images| - 1] else [])
  }

  /** The updated cards are exactly the indices whose lookup gave an image, in increasing order; a null lookup
      skips its card without stopping the later ones. */
  lemma {:induction false} ShownExactly(images: seq<Option<Image>>)
    ensures forall i :: i in Shown(images) <==> 0 <= i < |images| && images[i].Some?
    ensures forall a, b :: 0 <= a < b < |Shown(images)| ==> Shown(images)[a] < Shown(images)[b]
  {
    if images != [] {
      var front := images[..|images| - 1];
      ShownExactly(front);
      assert forall i :: 0 <= i < |front| ==> front[i] == images[i];
      assert forall a :: 0 <= a < |Shown(front)| ==> Shown(front)[a] in Shown(front) && Shown(front)[a] < |front|;
    }
  }

  /** Every ping carries the service's key and the download URL of a found image, and every found image with a
      truthy download URL is pinged. */
  lemma {:induction false} PingsMatchDownloads(key: Json, images: seq<Option<Image>>)
    ensures forall p :: p in Pings(key, images) ==>
      p.clientId == key && exists i :: 0 <= i < |images| && HasDownload(images[i]) && p.url == images[i].value.downloadUrl.value
    ensures forall i :: 0 <= i < |images| && HasDownload(images[i]) ==>
      UnsplashService.DownloadPing(images[i].value.downloadUrl.value, key) in Pings(key, images)
  {
    if images != [] {
      var front := images[..|images| - 1];
      PingsMatchDownloads(key, front);
      assert forall i :: 0 <= i < |front| ==> front[i] == images[i];
    }
  }

  /** One more index of the loop: each spec function grows by that index's part. */
  lemma LoopStep(key: Json, images: seq<Option<Image>>, i: nat)
    requires i < |images|
    ensures ImageMap(images[..i + 1]) == ImageMap(images[..i])[i := images[i]]
    ensures Pings(key, images[..i + 1]) == Pings(key, images[..i])
      + (if HasDownload(images[i]) then [UnsplashService.DownloadPing(images[i].value.downloadUrl.value, key)] else [])
    ensures Shown(images[..i + 1]) == Shown(images[..i]) + (if images[i].Some? then [i] else [])
  {
    assert images[..i + 1][..i] == images[..i];
  }

  /** Setting a key after a merge is setting it in the right-hand map. */
  lemma UpdateAfterMerge<K, V>(m: map<K, V>, n: map<K, V>, k: K, v: V)
    ensures (m + n)[k := v] == m + n[k := v]
  {
  }

  /** With no access key every lookup is null: every card gets a null entry, and nothing is shown or pinged. */
  lemma {:induction false} NoKeyNoImages(key: Json, recipes: seq<Recipe>, fetch: UnsplashService.SearchRequest -> UnsplashService.SearchResponse)
    requires !Truthy(key)
    ensures var images := Images(key, recipes, fetch);
      && (forall i :: 0 <= i < |recipes| ==> i in ImageMap(images) && ImageMap(images)[i].None?)
      && Shown(images) == [] && Pings(key, images) == []
  {
    var images := Images(key, recipes, fetch);
    NoneShown(key, images);
  }

  lemma {:induction false} NoneShown(key: Json, images: seq<Option<Image>>)
    requires forall i :: 0 <= i < |images| ==> images[i].None?
    ensures Shown(images) == [] && Pings(key, images) == []
  {
    if images != [] {
      NoneShown(key, images[..|images| - 1]);
    }
  }

  // ---------------------------------------------------------------------
  // Refining a recipe

  /** What `geminiService.refineRecipe(this.recipes[index], instruction)` settles to: the readiness check comes
      first; an index with no recipe then fails while the prompt is built, before any request. */
  function RefineOutcome(client: Option<Json>, recipes: seq<Recipe>, index: int, instruction: string,
                         call: (Json, GeminiService.Request) -> GeminiService.Reply,
                         decode: string -> Option<Recipe>): (r: Result<Recipe, string>)
    ensures r.Success? ==> client.Some? && 0 <= index < |recipes|
  {
    if client.None? then Failure(GeminiService.NOT_READY_FOR_REFINE)
    else if !(0 <= index < |recipes|) then Failure(NO_RECIPE_ERROR)
    else
      GeminiService.Settle(GeminiService.REFINE_FAILED,
        call(client.value, GeminiService.Request(GeminiService.GEMINI_MODEL, GeminiService.RefinePrompt(recipes[index], instruction))),
        decode)
  }

  /** `RecipeDisplay`: its state and the two services it uses. */
  class Display {
    var recipes: seq<Recipe>
    var recipeImages: map<int, Option<Image>>
    var expandedRecipe: Option<int>
    const gemini: GeminiService.Service
    const unsplash: UnsplashService.Service

    constructor(gemini: GeminiService.Service, unsplash: UnsplashService.Service)
      ensures recipes == [] && recipeImages == map[] && expandedRecipe.None?
      ensures this.gemini == gemini && this.unsplash == unsplash
    {
      recipes := [];
      recipeImages := map[];
      expandedRecipe := None;
      this.gemini := gemini;
      this.unsplash := unsplash;
    }

    /** `loadRecipeImages()`: every index in order gets its lookup in the map (null included, overwriting an
        older entry); images with a truthy download URL are pinged, and cards with an image are updated. */
    method LoadRecipeImages(fetch: UnsplashService.SearchRequest -> UnsplashService.SearchResponse)
      returns (pings: seq<DownloadPing>, shown: seq<int>)
      modifies this
      ensures recipes == old(recipes) && expandedRecipe == old(expandedRecipe)
      ensures var images := Images(unsplash.accessKey, recipes, fetch);
        && recipeImages == old(recipeImages) + ImageMap(images)
        && pings == Pings(unsplash.accessKey, images)
        && shown == Shown(images)
    {
      ghost var images := Images(unsplash.accessKey, recipes, fetch);
      pings := [];
      shown := [];
      var i := 0;
      while i < |recipes|
        invariant 0 <= i <= |recipes|
        invariant recipes == old(recipes) && expandedRecipe == old(expandedRecipe)
        invariant recipeImages == old(recipeImages) + ImageMap(images[..i])
        invariant pings == Pings(unsplash.accessKey, images[..i])
        invariant shown == Shown(images[..i])
      {
        var image, ping := LoadImage(i, fetch);
        LoopStep(unsplash.accessKey, images, i);
        assert image == images[i];
        UpdateAfterMerge(old(recipeImages), ImageMap(images[..i]), i, image);
        if ping.Some? {
          pings := pings + [ping.value];
        }
        if image.Some? {
          shown := shown + [i];
        }
        i := i + 1;
      }
      assert images[..i] == images;
    }

    /** One round of the loop in `loadRecipeImages()`: card `i` gets its lookup, and an image with a truthy
        download URL is reported. */
    method LoadImage(i: nat, fetch: UnsplashService.SearchRequest -> UnsplashService.SearchResponse)
      returns (image: Option<Image>, ping: Option<DownloadPing>)
      requires i < |recipes|
      modifies this
      ensures recipes == old(recipes) && expandedRecipe == old(expandedRecipe)
      ensures image == Lookup(unsplash.accessKey, recipes[i].title, fetch)
      ensures recipeImages == old(recipeImages)[i := image]
      ensures ping == if HasDownload(image)
        then Some(UnsplashService.DownloadPing(image.value.downloadUrl.value, unsplash.accessKey)) else None
    {
      var found, _ := unsplash.SearchRecipeImage(recipes[i].title, fetch);
      image := found;
      recipeImages := recipeImages[i := image];
      ping := None;
      if image.Some? {
        if image.value.downloadUrl.Some? && image.value.downloadUrl.value != "" {
          ping := unsplash.TrackDownload(image.value.downloadUrl);
        }
      }
    }

    /** `displayRecipes(recipes)`: the list is replaced as a whole, then the images are loaded. The expanded
        card and the entries of indices beyond the new list stay as they were. */
    method DisplayRecipes(newRecipes: seq<Recipe>, fetch: UnsplashService.SearchRequest -> UnsplashService.SearchResponse)
      returns (pings: seq<DownloadPing>, shown: seq<int>)
      modifies this
      ensures recipes == newRecipes && expandedRecipe == old(expandedRecipe)
      ensures var images := Images(unsplash.accessKey, newRecipes, fetch);
        && recipeImages == old(recipeImages) + ImageMap(images)
        && pings == Pings(unsplash.accessKey, images)
        && shown == Shown(images)
    {
      recipes := newRecipes;
      pings, shown := LoadRecipeImages(fetch);
    }

    /** `toggleRecipe(index)`. */
    method ToggleRecipe(index: int)
      modifies this
      ensures expandedRecipe == Toggled(old(expandedRecipe), index)
      ensures recipes == old(recipes) && recipeImages == old(recipeImages)
    {
      if expandedRecipe == Some(index) {
        expandedRecipe := None;
      } else {
        expandedRecipe := Some(index);
      }
    }

    /** The recipe service's answer for card `index`: `this.recipes[index]` is undefined past the end. */
    method Refinement(index: int, instruction: string,
                      call: (Json, GeminiService.Request) -> GeminiService.Reply, decode: string -> Option<Recipe>)
      returns (r: Result<Recipe, string>)
      ensures r == RefineOutcome(gemini.client, recipes, index, instruction, call, decode)
    {
      if !gemini.IsReady() {
        r := Failure(GeminiService.NOT_READY_FOR_REFINE);
      } else if !(0 <= index < |recipes|) {
        r := Failure(NO_RECIPE_ERROR);
      } else {
        r := gemini.RefineRecipe(recipes[index], instruction, call, decode);
      }
    }

    /** `refineRecipe(index, instruction)`: on success exactly that recipe is replaced and its card is kept open;
        on failure the alert carries the error and the state is untouched. */
    method RefineRecipe(index: int, instruction: string,
                        call: (Json, GeminiService.Request) -> GeminiService.Reply, decode: string -> Option<Recipe>)
      returns (alert: Option<string>)
      modifies this
      ensures recipeImages == old(recipeImages)
      ensures var outcome := RefineOutcome(gemini.client, old(recipes), index, instruction, call, decode);
        outcome.Success? ==> recipes == old(recipes)[index := outcome.value] && expandedRecipe == Some(index) && alert.None?
      ensures var outcome := RefineOutcome(gemini.client, old(recipes), index, instruction, call, decode);
        outcome.Failure? ==> && recipes == old(recipes) && expandedRecipe == old(expandedRecipe)
                             && alert == Some(GeminiService.REFINE_FAILED + outcome.error)
    {
      var r := Refinement(index, instruction, call, decode);
      if r.Success? {
        recipes := recipes[index := r.value];
        expandedRecipe := Some(index);
        alert := None;
      } else {
        alert := Some(GeminiService.REFINE_FAILED + r.error);
      }
    }

    /** `getRecipes()`. */
    function GetRecipes(): seq<Recipe>
      reads this
    {
      recipes
    }
  }

  /** After a successful refinement the refined card is the open one: it shows `閉じる`, every other card shows
      `詳細を見る`, and toggling it then closes every card. */
  lemma RefinedCardOpen(client: Option<Json>, recipes: seq<Recipe>, index: int, instruction: string,
                        call: (Json, GeminiService.Request) -> GeminiService.Reply,
                        decode: string -> Option<Recipe>, other: int)
    ensures RefineOutcome(client, recipes, index, instruction, call, decode).Success? ==> 0 <= index < |recipes|
    ensures ExpandLabel(Some(index), index) == CLOSE_LABEL
    ensures other != index ==> ExpandLabel(Some(index), other) == OPEN_LABEL
    ensures Toggled(Some(index), index) == None
  {
  }

  /** The custom refine button and the Enter key read the text box trimmed; a blank box requests no refinement
      (the button alerts, the Enter key stays silent), anything else asks for exactly the trimmed text. */
  function CustomInstruction(input: string): (r: Option<string>)
    ensures r.None? <==> Text.AllSpace(input)
    ensures r.Some? ==> r.value == Text.Trim(input) && r.value != ""
  {
    Text.TrimEmptyIffBlank(input);
    var instruction := Text.Trim(input);
    if instruction == "" then None else Some(instruction)
  }

  /** The button's alert for a blank box: given exactly when no refinement is requested. */
  function CustomButtonAlert(input: string): (r: Option<string>)
    ensures r == Some(BLANK_INSTRUCTION_ALERT) <==> Text.AllSpace(input)
    ensures r.None? ==> CustomInstruction(input).Some?
  {
    if CustomInstruction(input).None? then Some(BLANK_INSTRUCTION_ALERT) else None
  }
}
