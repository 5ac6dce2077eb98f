/**
 * The ingredient list of src/components/IngredientForm.js: a list field that
 * `addIngredient` appends to (after trimming, rejecting blanks and
 * duplicates) and `removeIngredient` filters, each change written through to
 * the store. The text box is a parameter; rendering and events are left out.
 */
module IngredientForm {
  import opened Wrappers
  import opened Text
  import opened JsValues
  import opened Seqs
  import Storage

  /** How `addIngredient` ends: nothing to add, already listed (an alert), or appended. */
  datatype AddOutcome = Blank | Duplicate | Added

  const DUPLICATE_ALERT := "この食材は既に追加されています"

  /** The list after `addIngredient` reads `input` from the text box. */
  function AfterAdd(xs: seq<string>, input: string): seq<string> {
    var item := Trim(input);
    if item == "" || item in xs then xs else xs + [item]
  }

  /** The list after `removeIngredient(x)`. */
  function AfterRemove(xs: seq<string>, x: string): seq<string> {
    Filter(xs, (y: string) => y != x)
  }

  /** Every entry is non-empty and has no white space at either end: what the add path lets in. */
  predicate AllClean(xs: seq<string>) {
    forall i :: 0 <= i < |xs| ==> xs[i] != "" && Trim(xs[i]) == xs[i]
  }

  /** A trimmed, non-empty text trims to itself. */
  lemma TrimIdempotent(s: string)
    ensures Trim(Trim(s)) == Trim(s)
  {
    var t := Trim(s);
    if t != [] {
      TrimPadded([], t, []);
      assert [] + t + [] == t;
    }
  }

  /** Adding keeps every earlier entry where it was and appends at most the trimmed input; a blank or listed
      input changes nothing. */
  lemma AddAppendsOnly(xs: seq<string>, input: string)
    ensures var r := AfterAdd(xs, input);
      && |xs| <= |r| <= |xs| + 1 && r[..|xs|] == xs
      && (|r| == |xs| + 1 <==> Trim(input) != "" && Trim(input) !in xs)
      && (|r| == |xs| + 1 ==> r[|xs|] == Trim(input))
  {
    var r := AfterAdd(xs, input);
    assert (xs + [Trim(input)])[..|xs|] == xs;
    assert xs[..|xs|] == xs;
  }

  /** Adding never creates a duplicate, and only clean entries get in. */
  lemma AddPreservesInvariant(xs: seq<string>, input: string)
    requires NoDuplicates(xs) && AllClean(xs)
    ensures NoDuplicates(AfterAdd(xs, input)) && AllClean(AfterAdd(xs, input))
  {
    var item := Trim(input);
    if item != "" && item !in xs {
      AppendFreshNoDuplicates(xs, item);
      TrimIdempotent(input);
      var r := xs + [item];
      forall i | 0 <= i < |r| ensures r[i] != "" && Trim(r[i]) == r[i] {
        if i < |xs| { assert r[i] == xs[i]; }
      }
    }
  }

  /** Removing drops every copy of `x` and nothing else, and keeps the survivors in order (piece by piece). */
  lemma RemoveDropsOnly(xs: seq<string>, x: string, front: seq<string>, back: seq<string>)
    requires xs == front + back
    ensures x !in AfterRemove(xs, x)
    ensures forall y :: y != x ==> (y in AfterRemove(xs, x) <==> y in xs)
    ensures AfterRemove(xs, x) == AfterRemove(front, x) + AfterRemove(back, x)
  {
    var keep := (y: string) => y != x;
    FilterMembership(xs, keep, x);
    forall y | y != x ensures y in AfterRemove(xs, x) <==> y in xs {
      FilterMembership(xs, keep, y);
    }
    FilterAppend(front, back, keep);
  }

  /** Removing keeps the list free of duplicates and clean. */
  lemma RemovePreservesInvariant(xs: seq<string>, x: string)
    requires NoDuplicates(xs) && AllClean(xs)
    ensures NoDuplicates(AfterRemove(xs, x)) && AllClean(AfterRemove(xs, x))
  {
    var keep := (y: string) => y != x;
    FilterNoDuplicates(xs, keep);
    var r := AfterRemove(xs, x);
    forall i | 0 <= i < |r| ensures r[i] != "" && Trim(r[i]) == r[i] {
      FilterMembership(xs, keep, r[i]);
      var j :| 0 <= j < |xs| && xs[j] == r[i];
    }
  }

  /** The list the constructor reads from the store: the stored list of strings, or none. */
  function Loaded(stored: Json): (xs: seq<string>)
    ensures AsStrings(stored).Some? ==> Strings(xs) == stored
    ensures AsStrings(stored).None? ==> xs == []
  {
    match AsStrings(stored)
    case Some(xs) => xs
    case None => []
  }

  /** A list written by the form is what a new form reads back from the store. */
  lemma SavedListReloads(items: map<string, string>, codec: Storage.Codec, xs: seq<string>)
    requires Storage.RoundTrips(codec, Strings(xs))
    ensures Loaded(Or(Storage.Read(Storage.Written(items, codec, Storage.INGREDIENTS_KEY, Strings(xs)), codec, Storage.INGREDIENTS_KEY), JArr([])))
         == xs
  {
    Storage.ReadAfterWrite(items, codec, Storage.INGREDIENTS_KEY, Strings(xs), Storage.INGREDIENTS_KEY);
    StringsRoundTrip(xs);
  }

  /** `IngredientForm`: the list and the store it is written through to. */
  class Form {
    var ingredients: seq<string>
    const store: Storage.Store

    /** The constructor starts from `storage.getIngredients()`. */
    constructor(store: Storage.Store)
      ensures this.store == store && ingredients == Loaded(store.GetIngredients())
    {
      this.store := store;
      ingredients := Loaded(store.GetIngredients());
    }

    predicate Valid()
      reads this
    {
      NoDuplicates(ingredients) && AllClean(ingredients)
    }

    /** `addIngredient()` with the text box holding `input`: a blank or listed entry changes and saves nothing;
        otherwise the trimmed entry is appended and exactly the new list is saved. */
    method AddIngredient(input: string) returns (outcome: AddOutcome)
      modifies this, store
      ensures ingredients == AfterAdd(old(ingredients), input)
      ensures outcome == if Trim(input) == "" then Blank else if Trim(input) in old(ingredients) then Duplicate else Added
      ensures outcome != Added ==> store.items == old(store.items)
      ensures outcome == Added ==> store.items == if store.writable
        then Storage.Written(old(store.items), store.codec, Storage.INGREDIENTS_KEY, Strings(ingredients))
        else old(store.items)
      ensures old(Valid()) ==> Valid()
    {
      if Valid() { AddPreservesInvariant(ingredients, input); }
      var item := Trim(input);
      if item == "" {
        return Blank;
      }
      if item in ingredients {
        return Duplicate;
      }
      ingredients := ingredients + [item];
      var _ := store.SaveIngredients(ingredients);
      outcome := Added;
    }

    /** `removeIngredient(x)`: every copy of `x` goes, the rest keep their order, and the new list is saved. */
    method RemoveIngredient(x: string)
      modifies this, store
      ensures ingredients == AfterRemove(old(ingredients), x)
      ensures store.items == if store.writable
        then Storage.Written(old(store.items), store.codec, Storage.INGREDIENTS_KEY, Strings(ingredients))
        else old(store.items)
      ensures old(Valid()) ==> Valid()
    {
      if Valid() { RemovePreservesInvariant(ingredients, x); }
      ingredients := Filter(ingredients, (y: string) => y != x);
      var _ := store.SaveIngredients(ingredients);
    }

    /** `getIngredients()`. */
    function GetIngredients(): seq<string>
      reads this
    {
      ingredients
    }
  }
}
