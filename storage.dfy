/**
 * The key-value store of src/utils/storage.js: named slots over the browser's
 * localStorage, a map from key to text. Values go in through JSON.stringify
 * and come out through JSON.parse; both are library code, so the store
 * carries them as an opaque codec. Reads never throw: a missing slot, an
 * empty text or text that does not parse all read as `null`, and each typed
 * getter substitutes its documented default for any falsy value.
 */
module Storage {
  import opened Wrappers
  import opened JsValues
  import Seqs

  const INGREDIENTS_KEY := "leftover_ingredients"
  const CONSTRAINTS_KEY := "leftover_constraints"
  const API_KEY := "gemini_api_key"
  const GEMINI_MODEL_KEY := "gemini_model"
  const UNSPLASH_KEY := "unsplash_api_key"
  const FAVORITES_KEY := "favorite_recipes"

  const DEFAULT_MODEL := "gemini-2.5-flash"
  const SAVED_AT := "savedAt"

  /** The constraints used when none are stored. */
  const DEFAULT_CONSTRAINTS: Json := JObj(map[
    "cookingTime" := JStr("any"),
    "difficulty" := JStr("any"),
    "mealType" := JStr("any"),
    "spiciness" := JStr("medium")])

  /** JSON.stringify and JSON.parse; `decode` answers None where JSON.parse throws. */
  datatype Codec = Codec(encode: Json -> string, decode: string -> Option<Json>)

  /** The codec stores `v` faithfully: its text is non-empty and parses back to `v` (true of plain data). */
  predicate RoundTrips(codec: Codec, v: Json) {
    codec.encode(v) != "" && codec.decode(codec.encode(v)) == Some(v)
  }

  /** `get(key)` over the stored texts: the parsed value, or null. */
  function Read(items: map<string, string>, codec: Codec, key: string): (v: Json)
    ensures v != JNull ==> key in items && items[key] != "" && codec.decode(items[key]) == Some(v)
    ensures key !in items || items[key] == "" || codec.decode(items[key]).None? ==> v == JNull
    ensures key in items && items[key] != "" && codec.decode(items[key]).Some? ==> v == codec.decode(items[key]).value
  {
    if key !in items || items[key] == "" then JNull
    else match codec.decode(items[key])
      case None => JNull
      case Some(v) => v
  }

  /** What `set(key, value)` leaves in localStorage, when the write is accepted. */
  function Written(items: map<string, string>, codec: Codec, key: string, value: Json): map<string, string> {
    items[key := codec.encode(value)]
  }

  /** Writing then reading the same key gives the value back; every other key reads as before. */
  lemma ReadAfterWrite(items: map<string, string>, codec: Codec, key: string, value: Json, other: string)
    requires RoundTrips(codec, value)
    ensures Read(Written(items, codec, key, value), codec, key) == value
    ensures other != key ==> Read(Written(items, codec, key, value), codec, other) == Read(items, codec, other)
  {
  }

  /** Removing a key makes it read as null and leaves the others alone. */
  lemma ReadAfterRemove(items: map<string, string>, codec: Codec, key: string, other: string)
    ensures Read(items - {key}, codec, key) == JNull
    ensures other != key ==> Read(items - {key}, codec, other) == Read(items, codec, other)
  {
  }

  /** `x.title === title`; any non-object, or an object without that title, does not match. */
  predicate HasTitle(x: Json, title: string) {
    x.JObj? && "title" in x.fields && x.fields["title"] == JStr(title)
  }

  /** `addFavorite`'s list update: push a copy of the recipe stamped with `savedAt`.
      A truthy stored value that is not a list has no `push`, so the call throws (None). */
  function WithFavorite(favorites: Json, recipe: map<string, Json>, savedAt: string): (r: Option<Json>)
    ensures r.None? <==> !favorites.JArr?
    ensures r.Some? ==> r.value.JArr? && |r.value.items| == |favorites.items| + 1
    ensures r.Some? ==> r.value.items[..|favorites.items|] == favorites.items
    ensures r.Some? ==> var added := r.value.items[|favorites.items|];
      && added.JObj?
      && added.fields.Keys == recipe.Keys + {SAVED_AT}
      && added.fields[SAVED_AT] == JStr(savedAt)
      && forall k :: k in recipe && k != SAVED_AT ==> added.fields[k] == recipe[k]
  {
    if favorites.JArr? then
      Some(JArr(favorites.items + [JObj(recipe[SAVED_AT := JStr(savedAt)])]))
    else
      None
  }

  /** `removeFavorite`'s list update: keep the entries whose title differs.
      Reading `.title` of a null entry throws, and so does `filter` on a non-list (None). */
  function WithoutFavorite(favorites: Json, title: string): (r: Option<Json>)
    ensures r.None? <==> !favorites.JArr? || JNull in favorites.items
    ensures r.Some? ==> r.value.JArr? && forall i :: 0 <= i < |r.value.items| ==> !HasTitle(r.value.items[i], title)
  {
    if favorites.JArr? && JNull !in favorites.items then
      Some(JArr(Seqs.Filter(favorites.items, (x: Json) => !HasTitle(x, title))))
    else
      None
  }

  /** The kept favourites are exactly the old ones without the title, and they stay in their order. */
  lemma WithoutFavoriteKeeps(favorites: Json, title: string, front: seq<Json>, back: seq<Json>)
    requires favorites.JArr? && JNull !in favorites.items
    requires favorites.items == front + back
    ensures var kept := WithoutFavorite(favorites, title).value.items;
      && (forall x :: x in kept <==> x in favorites.items && !HasTitle(x, title))
      && kept == WithoutFavorite(JArr(front), title).value.items + WithoutFavorite(JArr(back), title).value.items
  {
    var keep := (x: Json) => !HasTitle(x, title);
    forall x ensures x in Seqs.Filter(favorites.items, keep) <==> x in favorites.items && !HasTitle(x, title) {
      Seqs.FilterMembership(favorites.items, keep, x);
    }
    assert JNull !in front && JNull !in back by {
      assert forall x :: x in front ==> x in favorites.items;
      assert forall x :: x in back ==> x in favorites.items;
    }
    Seqs.FilterAppend(front, back, keep);
  }

  /** The browser's localStorage seen through storage.js. `writable` abstracts whether `setItem`
      and `removeItem` succeed (they throw when storage is full or disabled). */
  class Store {
    var items: map<string, string>
    const codec: Codec
    const writable: bool

    constructor(items0: map<string, string>, codec: Codec, writable: bool)
      ensures this.items == items0 && this.codec == codec && this.writable == writable
    {
      this.items := items0;
      this.codec := codec;
      this.writable := writable;
    }

    /** `get(key)`: the stored value, or null for a missing, empty or unparsable entry. */
    function Get(key: string): (v: Json)
      reads this
      ensures v != JNull ==> key in items && codec.decode(items[key]) == Some(v)
      ensures key !in items || items[key] == "" || codec.decode(items[key]).None? ==> v == JNull
      ensures key in items && items[key] != "" && codec.decode(items[key]).Some? ==> v == codec.decode(items[key]).value
    {
      Read(items, codec, key)
    }

    /** `set(key, value)`: stores the value's JSON text and answers true, or answers false and changes nothing. */
    method Set(key: string, value: Json) returns (ok: bool)
      modifies this
      ensures ok == writable
      ensures items == if ok then Written(old(items), codec, key, value) else old(items)
    {
      ok := writable;
      if ok {
        items := items[key := codec.encode(value)];
      }
    }

    /** `remove(key)`: drops the entry and answers true, or answers false and changes nothing. */
    method Remove(key: string) returns (ok: bool)
      modifies this
      ensures ok == writable
      ensures items == if ok then old(items) - {key} else old(items)
    {
      ok := writable;
      if ok {
        items := items - {key};
      }
    }

    /** `getIngredients()`: the stored list, or `[]` when nothing truthy is stored. */
    function GetIngredients(): (v: Json)
      reads this
      ensures Truthy(v)
      ensures Truthy(Get(INGREDIENTS_KEY)) ==> v == Get(INGREDIENTS_KEY)
      ensures !Truthy(Get(INGREDIENTS_KEY)) ==> v == JArr([])
    {
      Or(Get(INGREDIENTS_KEY), JArr([]))
    }

    method SaveIngredients(ingredients: seq<string>) returns (ok: bool)
      modifies this
      ensures ok == writable
      ensures items == if ok then Written(old(items), codec, INGREDIENTS_KEY, Strings(ingredients)) else old(items)
    {
      ok := Set(INGREDIENTS_KEY, Strings(ingredients));
    }

    /** `getConstraints()`: the stored record, or any/any/any/medium when nothing truthy is stored. */
    function GetConstraints(): (v: Json)
      reads this
      ensures Truthy(v)
      ensures !Truthy(Get(CONSTRAINTS_KEY)) ==> v == DEFAULT_CONSTRAINTS
      ensures Truthy(Get(CONSTRAINTS_KEY)) ==> v == Get(CONSTRAINTS_KEY)
    {
      Or(Get(CONSTRAINTS_KEY), DEFAULT_CONSTRAINTS)
    }

    method SaveConstraints(constraints: Json) returns (ok: bool)
      modifies this
      ensures ok == writable
      ensures items == if ok then Written(old(items), codec, CONSTRAINTS_KEY, constraints) else old(items)
    {
      ok := Set(CONSTRAINTS_KEY, constraints);
    }

    /** `getApiKey()`: the stored key with no default; null when absent or unreadable. */
    function GetApiKey(): (v: Json)
      reads this
      ensures v != JNull ==> API_KEY in items && codec.decode(items[API_KEY]) == Some(v)
      ensures API_KEY !in items || items[API_KEY] == "" || codec.decode(items[API_KEY]).None? ==> v == JNull
      ensures API_KEY in items && items[API_KEY] != "" && codec.decode(items[API_KEY]).Some? ==> v == codec.decode(items[API_KEY]).value
    {
      Get(API_KEY)
    }

    method SaveApiKey(apiKey: string) returns (ok: bool)
      modifies this
      ensures ok == writable
      ensures items == if ok then Written(old(items), codec, API_KEY, JStr(apiKey)) else old(items)
    {
      ok := Set(API_KEY, JStr(apiKey));
    }

    /** `getUnsplashKey()`: the stored key with no default. */
    function GetUnsplashKey(): (v: Json)
      reads this
      ensures v != JNull ==> UNSPLASH_KEY in items && codec.decode(items[UNSPLASH_KEY]) == Some(v)
      ensures UNSPLASH_KEY !in items || items[UNSPLASH_KEY] == "" || codec.decode(items[UNSPLASH_KEY]).None? ==> v == JNull
      ensures UNSPLASH_KEY in items && items[UNSPLASH_KEY] != "" && codec.decode(items[UNSPLASH_KEY]).Some? ==> v == codec.decode(items[UNSPLASH_KEY]).value
    {
      Get(UNSPLASH_KEY)
    }

    method SaveUnsplashKey(apiKey: string) returns (ok: bool)
      modifies this
      ensures ok == writable
      ensures items == if ok then Written(old(items), codec, UNSPLASH_KEY, JStr(apiKey)) else old(items)
    {
      ok := Set(UNSPLASH_KEY, JStr(apiKey));
    }

    /** `getGeminiModel()`: the stored model, or 'gemini-2.5-flash' when the stored value is missing or falsy (`""` included). */
    function GetGeminiModel(): (v: Json)
      reads this
      ensures Truthy(v)
      ensures !Truthy(Get(GEMINI_MODEL_KEY)) ==> v == JStr(DEFAULT_MODEL)
      ensures Truthy(Get(GEMINI_MODEL_KEY)) ==> v == Get(GEMINI_MODEL_KEY)
    {
      Or(Get(GEMINI_MODEL_KEY), JStr(DEFAULT_MODEL))
    }

    method SaveGeminiModel(model: string) returns (ok: bool)
      modifies this
      ensures ok == writable
      ensures items == if ok then Written(old(items), codec, GEMINI_MODEL_KEY, JStr(model)) else old(items)
    {
      ok := Set(GEMINI_MODEL_KEY, JStr(model));
    }

    /** `getFavorites()`: the stored list, or `[]` when nothing truthy is stored. */
    function GetFavorites(): (v: Json)
      reads this
      ensures Truthy(v)
      ensures !Truthy(Get(FAVORITES_KEY)) ==> v == JArr([])
      ensures Truthy(Get(FAVORITES_KEY)) ==> v == Get(FAVORITES_KEY)
    {
      Or(Get(FAVORITES_KEY), JArr([]))
    }

    /** `addFavorite(recipe)` with the clock's ISO time `savedAt`. None: the call threw and nothing was written;
        Some(ok): the answer of the write of the extended list. */
    method AddFavorite(recipe: map<string, Json>, savedAt: string) returns (r: Option<bool>)
      modifies this
      ensures r.None? <==> WithFavorite(old(GetFavorites()), recipe, savedAt).None?
      ensures r.None? ==> items == old(items)
      ensures r.Some? ==> r.value == writable && items == if writable
        then Written(old(items), codec, FAVORITES_KEY, WithFavorite(old(GetFavorites()), recipe, savedAt).value)
        else old(items)
    {
      var updated := WithFavorite(GetFavorites(), recipe, savedAt);
      if updated.None? {
        r := None;
      } else {
        var ok := Set(FAVORITES_KEY, updated.value);
        r := Some(ok);
      }
    }

    /** `removeFavorite(title)`. None: the call threw and nothing was written;
        Some(ok): the answer of the write of the filtered list. */
    method RemoveFavorite(title: string) returns (r: Option<bool>)
      modifies this
      ensures r.None? <==> WithoutFavorite(old(GetFavorites()), title).None?
      ensures r.None? ==> items == old(items)
      ensures r.Some? ==> r.value == writable && items == if writable
        then Written(old(items), codec, FAVORITES_KEY, WithoutFavorite(old(GetFavorites()), title).value)
        else old(items)
    {
      var updated := WithoutFavorite(GetFavorites(), title);
      if updated.None? {
        r := None;
      } else {
        var ok := Set(FAVORITES_KEY, updated.value);
        r := Some(ok);
      }
    }
  }
}
