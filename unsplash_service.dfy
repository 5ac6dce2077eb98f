/**
 * The image search of src/services/unsplashService.js: the access key (a
 * field loaded from the store), the rewriting of a recipe title into a search
 * query, the mapping of the first search result to an image record, the
 * fixed fallback image, and the guard in front of download tracking. The
 * HTTP request is a function parameter standing for `fetch`.
 */
module UnsplashService {
  import opened Wrappers
  import opened Text
  import opened JsValues
  import Storage

  // ---------------------------------------------------------------------
  // Title cleaning: `replace(/pattern/g, '')`, pass after pass

  /** The length of the first alternative (in preference order) that starts `s`, or 0 when none does. */
  function MatchAt(s: string, alts: seq<string>): (n: nat)
    ensures n <= |s|
    ensures n > 0 ==> exists k :: 0 <= k < |alts| && alts[k] != [] && StartsWith(s, alts[k]) && n == |alts[k]|
                                 && forall j :: 0 <= j < k && alts[j] != [] ==> !StartsWith(s, alts[j])
    ensures n == 0 ==> forall k :: 0 <= k < |alts| && alts[k] != [] ==> !StartsWith(s, alts[k])
  {
    if alts == [] then 0
    else if alts[0] != [] && StartsWith(s, alts[0]) then |alts[0]|
    else
      var n := MatchAt(s, alts[1..]);
      assert forall k :: 1 <= k < |alts| ==> alts[k] == alts[1..][k - 1];
      if n > 0 then
        var k :| 0 <= k < |alts[1..]| && alts[1..][k] != [] && StartsWith(s, alts[1..][k]) && n == |alts[1..][k]|
          && forall j :: 0 <= j < k && alts[1..][j] != [] ==> !StartsWith(s, alts[1..][j]);
        assert forall j :: 1 <= j < k + 1 ==> alts[j] == alts[1..][j - 1];
        n
      else n
  }

  /** Some alternative of the pattern matches at index `i`. */
  predicate MatchesAt(s: string, alts: seq<string>, i: int) {
    0 <= i < |s| && MatchAt(s[i..], alts) > 0
  }

  /** A global replacement by the empty string: scanning left to right, each leftmost match is cut out and the
      scan resumes after it; at one position the alternatives are tried in order (a greedy `x?` tries the
      longer form first). */
  function RemoveAll(s: string, alts: seq<string>): (r: string)
    ensures |r| <= |s|
    ensures |r| <= |s| - MatchAt(s, alts)
    decreases |s|
  {
    if s == [] then []
    else
      var n := MatchAt(s, alts);
      if n > 0 then RemoveAll(s[n..], alts) else [s[0]] + RemoveAll(s[1..], alts)
  }

  /** A replacement pass changes the text exactly when the pattern matches somewhere in it. */
  lemma {:induction false} RemoveAllUnchanged(s: string, alts: seq<string>)
    ensures RemoveAll(s, alts) == s <==> forall i :: 0 <= i < |s| ==> !MatchesAt(s, alts, i)
  {
    if s != [] {
      var tail := s[1..];
      RemoveAllUnchanged(tail, alts);
      forall i | 1 <= i < |s| ensures MatchesAt(s, alts, i) == MatchesAt(tail, alts, i - 1) {
        assert s[i..] == tail[i - 1..];
      }
      if MatchAt(s, alts) > 0 {
        assert s[0..] == s;
        assert MatchesAt(s, alts, 0);
        assert |RemoveAll(s, alts)| < |s|;
      } else {
        assert s[0..] == s;
        assert !MatchesAt(s, alts, 0);
        var rest := RemoveAll(tail, alts);
        assert RemoveAll(s, alts) == [s[0]] + rest;
        assert ([s[0]] + rest)[1..] == rest;
        assert s == [s[0]] + tail;
        assert RemoveAll(s, alts) == s <==> rest == tail;
        assert (forall i :: 0 <= i < |tail| ==> !MatchesAt(tail, alts, i))
           ==> (forall i :: 0 <= i < |s| ==> !MatchesAt(s, alts, i));
        assert (forall i :: 0 <= i < |s| ==> !MatchesAt(s, alts, i))
           ==> (forall i :: 0 <= i < |tail| ==> !MatchesAt(tail, alts, i)) by {
          forall i | 0 <= i < |tail| ensures MatchesAt(tail, alts, i) == MatchesAt(s, alts, i + 1) { }
        }
      }
    }
  }

  const RECIPE_WORDS := ["のレシピ", "レシピ"]
  const EASY_WORDS := ["簡単な", "簡単"]
  const TASTY_WORDS := ["美味しい"]
  const HOW_TO_WORDS := ["作り方"]
  const FOOD_DISH := " food dish"

  /** The title with the four patterns removed, in sequence: `の?レシピ`, `簡単な?`, `美味しい`, `作り方`. */
  function StripCookingWords(title: string): (r: string)
    ensures |r| <= |title|
  {
    RemoveAll(RemoveAll(RemoveAll(RemoveAll(title, RECIPE_WORDS), EASY_WORDS), TASTY_WORDS), HOW_TO_WORDS)
  }

  /** `cleanRecipeTitle`: the stripped title, trimmed, followed by " food dish". */
  function CleanRecipeTitle(title: string): (query: string)
    ensures EndsWith(query, FOOD_DISH)
    ensures var core := query[..|query| - |FOOD_DISH|];
      core == Trim(StripCookingWords(title)) && (core != [] ==> !IsSpace(core[0]) && !IsSpace(core[|core| - 1]))
    ensures |query| <= |title| + |FOOD_DISH|
  {
    var core := Trim(StripCookingWords(title));
    var query := core + FOOD_DISH;
    assert query[|query| - |FOOD_DISH|..] == FOOD_DISH;
    assert query[..|query| - |FOOD_DISH|] == core;
    query
  }

  /** A title without any of the cooking words is only trimmed. */
  lemma CleanPlainTitle(title: string)
    requires forall i :: 0 <= i < |title| ==>
      !MatchesAt(title, RECIPE_WORDS, i) && !MatchesAt(title, EASY_WORDS, i)
      && !MatchesAt(title, TASTY_WORDS, i) && !MatchesAt(title, HOW_TO_WORDS, i)
    ensures CleanRecipeTitle(title) == Trim(title) + FOOD_DISH
  {
    RemoveAllUnchanged(title, RECIPE_WORDS);
    RemoveAllUnchanged(title, EASY_WORDS);
    RemoveAllUnchanged(title, TASTY_WORDS);
    RemoveAllUnchanged(title, HOW_TO_WORDS);
  }

  /** At one position `の?レシピ` prefers the longer form. */
  lemma RecipeWordsMatch(s: string)
    ensures MatchAt(s, RECIPE_WORDS) == if StartsWith(s, "のレシピ") then 4 else if StartsWith(s, "レシピ") then 3 else 0
  {
    assert RECIPE_WORDS[1..] == ["レシピ"];
    assert ["レシピ"][1..] == [];
  }

  /** At one position `簡単な?` prefers the longer form: both alternatives can start there, and the first wins. */
  lemma EasyWordsMatch(s: string)
    ensures MatchAt(s, EASY_WORDS) == if StartsWith(s, "簡単な") then 3 else if StartsWith(s, "簡単") then 2 else 0
  {
    assert EASY_WORDS[1..] == ["簡単"];
    assert ["簡単"][1..] == [];
  }
  /** Each pattern is applied once: cutting out a match can join its neighbours into a new match, which stays. */
  lemma SinglePass()
    ensures RemoveAll("レレシピシピ", RECIPE_WORDS) == "レシピ"
  {
    var s0, s1 := "レレシピシピ", "レシピシピ";
    assert s0[0] == 'レ' && "のレシピ"[0] == 'の';
    assert s0[1] == 'レ' && "レシピ"[1] == 'シ';
    RecipeWordsMatch(s0);
    assert !StartsWith(s0, "のレシピ");
    assert !StartsWith(s0, "レシピ");
    assert s0[1..] == s1;
    RemoveFromJoined();
  }

  /** The tail of the example: `レシピ` is cut out, and the `シピ` left behind matches nothing. */
  lemma RemoveFromJoined()
    ensures RemoveAll("レシピシピ", RECIPE_WORDS) == "シピ"
  {
    var s1, s2, s3 := "レシピシピ", "シピ", "ピ";
    RecipeWordsMatch(s1); RecipeWordsMatch(s2); RecipeWordsMatch(s3);
    assert s1[..4][0] == 'レ';
    assert s1[..3] == "レシピ";
    assert s1[3..] == s2;
    assert |s2| < 3;
    assert s2[1..] == s3;
    assert s3[1..] == "";
    assert RemoveAll(s3, RECIPE_WORDS) == s3;
    assert RemoveAll(s2, RECIPE_WORDS) == s2;
  }

  // ---------------------------------------------------------------------
  // Search results

  /** The record the application keeps for a photo; the fallback has no download location. */
  datatype Image = Image(
    smallUrl: string,
    regularUrl: string,
    alt: string,
    photographer: string,
    photographerUrl: string,
    downloadUrl: Option<string>)

  /** The fields of one search result that are read (`alt_description` may be null). */
  datatype Photo = Photo(
    smallUrl: string,
    regularUrl: string,
    altDescription: Option<string>,
    userName: string,
    userLink: string,
    downloadLocation: string)

  /** The query parameters of `GET /search/photos`; the access key travels as `client_id` and in the header. */
  datatype SearchRequest = SearchRequest(query: string, perPage: string, orientation: string, contentFilter: string, clientId: Json)

  /** What the request yields: a thrown error (network, or a body that is not JSON), or a status and the
      `results` field of the body, which may be absent. */
  datatype SearchResponse = Thrown | Response(ok: bool, status: int, results: Option<seq<Photo>>)

  /** The request a download is tracked with. */
  datatype DownloadPing = DownloadPing(url: string, clientId: Json)

  function SearchFor(accessKey: Json, title: string): SearchRequest {
    SearchRequest(CleanRecipeTitle(title), "1", "landscape", "high", accessKey)
  }

  /** The mapping of one photo: `alt_description || recipeTitle`. */
  function ImageOf(photo: Photo, title: string): (image: Image)
    ensures image.downloadUrl == Some(photo.downloadLocation)
    ensures image.alt == "" <==> title == "" && (photo.altDescription.None? || photo.altDescription.value == "")
  {
    Image(photo.smallUrl, photo.regularUrl,
          if photo.altDescription.Some? && photo.altDescription.value != "" then photo.altDescription.value else title,
          photo.userName, photo.userLink, Some(photo.downloadLocation))
  }

  /** The outcome of a search: the first photo when the status is OK and the result list is non-empty; null for
      a thrown error, a non-OK status, a missing or empty result list. */
  function ImageFromResponse(response: SearchResponse, title: string): (r: Option<Image>)
    ensures r.Some? <==> response.Response? && response.ok && response.results.Some? && |response.results.value| > 0
    ensures r.Some? ==> var photo := response.results.value[0];
      && r.value.smallUrl == photo.smallUrl && r.value.regularUrl == photo.regularUrl
      && r.value.photographer == photo.userName && r.value.photographerUrl == photo.userLink
      && r.value.downloadUrl == Some(photo.downloadLocation)
      && (photo.altDescription.Some? && photo.altDescription.value != "" ==> r.value.alt == photo.altDescription.value)
      && (photo.altDescription.None? || photo.altDescription.value == "" ==> r.value.alt == title)
  {
    match response
    case Thrown => None
    case Response(ok, _, results) =>
      if !ok then None
      else if results.None? || |results.value| == 0 then None
      else Some(ImageOf(results.value[0], title))
  }

  /** Only the first photo matters: responses that agree on it give the same image. */
  lemma OnlyFirstPhotoCounts(a: seq<Photo>, b: seq<Photo>, status: int, title: string)
    requires a != [] && b != [] && a[0] == b[0]
    ensures ImageFromResponse(Response(true, status, Some(a)), title) == ImageFromResponse(Response(true, status, Some(b)), title)
  {
  }

  /** A found image has a non-empty alt text whenever the title is non-empty. */
  lemma AltTextPresent(response: SearchResponse, title: string)
    requires title != ""
    ensures var r := ImageFromResponse(response, title); r.Some? ==> r.value.alt != ""
  {
  }

  const FALLBACK_SMALL_URL := "https://images.unsplash.com/photo-1546069901-ba9599a7e63c?w=400&h=300&fit=crop"
  const FALLBACK_REGULAR_URL := "https://images.unsplash.com/photo-1546069901-ba9599a7e63c"
  const FALLBACK_PHOTOGRAPHER := "Alyson McPhee"
  const FALLBACK_PHOTOGRAPHER_URL := "https://unsplash.com/@alyson_jane"

  /** `getFallbackImage(recipeTitle)`: a fixed photo whose alt text is the title and which has nothing to track. */
  function FallbackImage(title: string): (img: Image)
    ensures img.alt == title && img.downloadUrl.None?
  {
    Image(FALLBACK_SMALL_URL, FALLBACK_REGULAR_URL, title, FALLBACK_PHOTOGRAPHER, FALLBACK_PHOTOGRAPHER_URL, None)
  }

  /** The fallback is one fixed photo: two fallbacks differ in their alt text alone. */
  lemma FallbackIsFixed(a: string, b: string)
    ensures FallbackImage(a) == FallbackImage(b).(alt := a)
  {
  }

  // ---------------------------------------------------------------------
  // The service object

  /** `UnsplashService`: the access key is loaded from the store on construction and replaced by `setAccessKey`. */
  class Service {
    var accessKey: Json
    const store: Storage.Store

    constructor(store: Storage.Store)
      ensures this.store == store && accessKey == store.GetUnsplashKey()
    {
      this.store := store;
      accessKey := store.GetUnsplashKey();
    }

    /** `hasAccessKey`: `!!this.accessKey`, so an empty key counts as none. */
    predicate HasAccessKey()
      reads this
      ensures accessKey == JNull || accessKey == JStr("") ==> !HasAccessKey()
      ensures accessKey.JStr? && accessKey.s != "" ==> HasAccessKey()
    {
      Truthy(accessKey)
    }

    /** `setAccessKey(apiKey)`: the key takes effect at once and is also persisted. */
    method SetAccessKey(apiKey: string) returns (saved: bool)
      modifies this, store
      ensures accessKey == JStr(apiKey) && HasAccessKey() == (apiKey != "")
      ensures saved == store.writable
      ensures store.items == if saved then Storage.Written(old(store.items), store.codec, Storage.UNSPLASH_KEY, JStr(apiKey)) else old(store.items)
    {
      accessKey := JStr(apiKey);
      saved := store.SaveUnsplashKey(apiKey);
    }

    /** `searchRecipeImage(recipeTitle)`: without a key, null and no request at all; otherwise one request for the
        cleaned title, whose response is mapped to the first photo or null. */
    method SearchRecipeImage(title: string, fetch: SearchRequest -> SearchResponse)
      returns (image: Option<Image>, sent: Option<SearchRequest>)
      ensures !HasAccessKey() ==> image.None? && sent.None?
      ensures HasAccessKey() ==> sent == Some(SearchFor(accessKey, title))
      ensures HasAccessKey() ==> image == ImageFromResponse(fetch(SearchFor(accessKey, title)), title)
    {
      if !HasAccessKey() {
        return None, None;
      }
      var request := SearchFor(accessKey, title);
      var response := fetch(request);
      image := ImageFromResponse(response, title);
      sent := Some(request);
    }

    /** `trackDownload(downloadUrl)`: the request it sends, none for a missing or empty URL. */
    function TrackDownload(downloadUrl: Option<string>): (ping: Option<DownloadPing>)
      reads this
      ensures ping.None? <==> downloadUrl.None? || downloadUrl.value == ""
      ensures ping.Some? ==> ping.value.url == downloadUrl.value && ping.value.clientId == accessKey
    {
      if downloadUrl.None? || downloadUrl.value == "" then None else Some(DownloadPing(downloadUrl.value, accessKey))
    }
  }
}
