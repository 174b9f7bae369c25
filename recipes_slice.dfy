/**
 * The client's recipe store (the `recipe` slice): the list, the detail record, the
 * loading flags, one shared error string, the two filter fields, and the durable
 * cache that `saveToLS` writes and `loadFromLS` reads.
 */
module RecipesSlice {
  import opened Wrappers
  import Seqs

  /**
   * A recipe as the client holds it. An optional field that is `None` is an absent key:
   * `JSON.stringify` drops `undefined`, so an absent key stays absent in the cache.
   */
  datatype Recipe = Recipe(
    id: string,
    name: string,
    ingredients: seq<string>,
    instructions: string,
    imageUrl: Option<string>,
    category: Option<string>,
    favorite: Option<bool>)

  // ---------------------------------------------------------------------------
  // Favourite flag

  /** How `favorite` reads in a condition: an absent flag counts as false. */
  predicate IsFavorite(r: Recipe) {
    r.favorite == Some(true)
  }

  /** The recipe after `r.favorite = !r.favorite`. */
  function ToggledFavorite(r: Recipe): (t: Recipe)
    ensures IsFavorite(t) == !IsFavorite(r)
    ensures t.favorite.Some?
    ensures t.(favorite := r.favorite) == r
  {
    r.(favorite := Some(!IsFavorite(r)))
  }

  /** Toggling twice restores the flag; it restores the record itself once the flag is present. */
  lemma ToggleTwice(r: Recipe)
    ensures IsFavorite(ToggledFavorite(ToggledFavorite(r))) == IsFavorite(r)
    ensures r.favorite.Some? <==> ToggledFavorite(ToggledFavorite(r)) == r
  {
    var once := ToggledFavorite(r);
    var twice := ToggledFavorite(once);
    match r.favorite
    case None =>
      assert twice.favorite != r.favorite;
    case Some(b) =>
      assert IsFavorite(r) == b;
      assert once.favorite == Some(!b);
      assert IsFavorite(once) == !b;
      assert twice == r;
  }

  // ---------------------------------------------------------------------------
  // Lookups by id

  ghost predicate HasId(list: seq<Recipe>, id: string) {
    exists i :: 0 <= i < |list| && list[i].id == id
  }

  ghost predicate DistinctIds(list: seq<Recipe>) {
    forall i, j :: 0 <= i < j < |list| ==> list[i].id != list[j].id
  }

  /** `list.findIndex((r) => r.id === id)`, with `None` for -1 (`find` uses the same index). */
  function FirstIndexWithId(list: seq<Recipe>, id: string): (r: Option<nat>)
    ensures r.Some? ==> r.value < |list| && list[r.value].id == id
    ensures r.Some? ==> forall j :: 0 <= j < r.value ==> list[j].id != id
    ensures r.None? <==> !HasId(list, id)
  {
    if list == [] then None
    else if list[0].id == id then Some(0)
    else
      match FirstIndexWithId(list[1..], id)
      case None =>
        assert forall j :: 1 <= j < |list| ==> list[j] == list[1..][j - 1];
        None
      case Some(k) =>
        assert list[k + 1] == list[1..][k];
        Some(k + 1)
  }

  /** How many entries carry `id`. */
  function CountWithId(list: seq<Recipe>, id: string): (n: nat)
    ensures n <= |list|
    ensures n == 0 <==> !HasId(list, id)
  {
    if list == [] then 0
    else
      assert forall j :: 1 <= j < |list| ==> list[j] == list[1..][j - 1];
      (if list[0].id == id then 1 else 0) + CountWithId(list[1..], id)
  }

  /** `list.filter((r) => r.id !== id)` */
  function WithoutId(list: seq<Recipe>, id: string): (r: seq<Recipe>)
    ensures forall k :: 0 <= k < |r| ==> r[k].id != id
    ensures forall x :: x in list && x.id != id ==> x in r
    ensures Seqs.IsSubsequence(r, list)
    ensures |r| == |list| - CountWithId(list, id)
  {
    if list == [] then []
    else
      var rest := WithoutId(list[1..], id);
      assert forall x :: x in list ==> x == list[0] || x in list[1..];
      if list[0].id == id then rest else [list[0]] + rest
  }

  /** Deleting an id that is not in the list changes nothing. */
  lemma {:induction false} WithoutAbsentId(list: seq<Recipe>, id: string)
    requires !HasId(list, id)
    ensures WithoutId(list, id) == list
  {
    if list != [] {
      assert forall j :: 1 <= j < |list| ==> list[j] == list[1..][j - 1];
      WithoutAbsentId(list[1..], id);
    }
  }

  // ---------------------------------------------------------------------------
  // The fetch-time merge with the cache

  /** `{ ...srv, ...cached }` for one optional key: the cached value wins when the key is present. */
  function Pick<T>(server: Option<T>, cached: Option<T>): (r: Option<T>)
    ensures cached.Some? ==> r == cached
    ensures cached.None? ==> r == server
    ensures r.Some? <==> server.Some? || cached.Some?
  {
    if cached.Some? then cached else server
  }

  /**
   * `{ ...srv, ...cached }`: every key present in the cached record wins. The four
   * required keys are always present, so only absent optional keys keep the server's value.
   */
  function Overlay(srv: Recipe, cached: Recipe): (r: Recipe)
    ensures r.id == cached.id && r.name == cached.name
    ensures r.ingredients == cached.ingredients && r.instructions == cached.instructions
    ensures r.imageUrl == (if cached.imageUrl.Some? then cached.imageUrl else srv.imageUrl)
    ensures r.category == (if cached.category.Some? then cached.category else srv.category)
    ensures r.favorite == (if cached.favorite.Some? then cached.favorite else srv.favorite)
    ensures cached.imageUrl.Some? && cached.category.Some? && cached.favorite.Some? ==> r == cached
  {
    Recipe(cached.id, cached.name, cached.ingredients, cached.instructions,
           Pick(srv.imageUrl, cached.imageUrl), Pick(srv.category, cached.category),
           Pick(srv.favorite, cached.favorite))
  }

  /** Overlaying a second time with the overlaid record, or overlaying a record with itself, changes nothing. */
  lemma OverlayAbsorbs(srv: Recipe, cached: Recipe)
    ensures Overlay(srv, Overlay(srv, cached)) == Overlay(srv, cached)
    ensures Overlay(srv, srv) == srv
  {
  }

  /** The last position of `list` that holds `id`. */
  function LastIndexWithId(list: seq<Recipe>, id: string): (r: Option<nat>)
    ensures r.Some? ==> r.value < |list| && list[r.value].id == id
    ensures r.Some? ==> forall j :: r.value < j < |list| ==> list[j].id != id
    ensures r.None? <==> !HasId(list, id)
    decreases |list|
  {
    if list == [] then None
    else if list[|list| - 1].id == id then Some(|list| - 1)
    else
      var init := list[..|list| - 1];
      assert forall j :: 0 <= j < |init| ==> init[j] == list[j];
      LastIndexWithId(init, id)
  }

  /** `new Map(existing.map((r) => [r.id, r]))`: a later entry replaces an earlier one with the same id. */
  function IndexById(list: seq<Recipe>): (m: map<string, Recipe>)
    ensures forall id :: id in m <==> HasId(list, id)
    ensures forall id :: id in m ==> LastIndexWithId(list, id).Some? && m[id] == list[LastIndexWithId(list, id).value]
    decreases |list|
  {
    if list == [] then map[]
    else
      var init := list[..|list| - 1];
      var last := list[|list| - 1];
      var m := IndexById(init);
      assert forall j :: 0 <= j < |init| ==> init[j] == list[j];
      assert forall id :: HasId(list, id) ==> id == last.id || HasId(init, id) by {
        forall id | HasId(list, id)
          ensures id == last.id || HasId(init, id)
        {
          var k :| 0 <= k < |list| && list[k].id == id;
          if k < |init| { assert init[k].id == id; }
        }
      }
      m[last.id := last]
  }

  /** What `fetchRecipes.fulfilled` stores for the server record `srv` when the cache is `cache`. */
  ghost predicate IsMergedEntry(srv: Recipe, cache: seq<Recipe>, e: Recipe) {
    match LastIndexWithId(cache, srv.id)
    case Some(j) => e == Overlay(srv, cache[j])
    case None => e == srv
  }

  /**
   * The list `fetchRecipes.fulfilled` stores: the server list in its own order and length,
   * each record overlaid by the last cached record with its id. Recipes that are only in
   * the cache are dropped, and with no cache the payload is kept as it is.
   */
  function MergeWithCache(payload: seq<Recipe>, existing: Option<seq<Recipe>>): (r: seq<Recipe>)
    ensures |r| == |payload|
    ensures forall i :: 0 <= i < |payload| ==> r[i].id == payload[i].id
    ensures existing.None? ==> r == payload
    ensures existing.Some? ==> forall i :: 0 <= i < |payload| ==> IsMergedEntry(payload[i], existing.value, r[i])
  {
    match existing
    case None => payload
    case Some(cache) =>
      var m := IndexById(cache);
      seq(|payload|, i requires 0 <= i < |payload| =>
        if payload[i].id in m then Overlay(payload[i], m[payload[i].id]) else payload[i])
  }

  /** A position whose id no other position holds is the last position with that id. */
  lemma LastIndexOfUniqueId(list: seq<Recipe>, i: nat)
    requires i < |list|
    requires forall k :: 0 <= k < |list| && k != i ==> list[k].id != list[i].id
    ensures LastIndexWithId(list, list[i].id) == Some(i)
  {
  }

  /** A merged entry is unchanged by overlaying it on its server record again. */
  lemma MergedEntryAbsorbs(srv: Recipe, cache: seq<Recipe>, e: Recipe)
    requires IsMergedEntry(srv, cache, e)
    ensures Overlay(srv, e) == e
  {
    match LastIndexWithId(cache, srv.id)
    case Some(j) => OverlayAbsorbs(srv, cache[j]);
    case None => OverlayAbsorbs(srv, srv);
  }

  /**
   * Receiving the same server list twice keeps the list: the first merge is what is cached,
   * and overlaying a merged record by itself is the identity. Needs distinct server ids.
   */
  lemma MergeIdempotent(payload: seq<Recipe>, existing: Option<seq<Recipe>>)
    requires DistinctIds(payload)
    ensures MergeWithCache(payload, Some(MergeWithCache(payload, existing))) == MergeWithCache(payload, existing)
  {
    var first := MergeWithCache(payload, existing);
    var second := MergeWithCache(payload, Some(first));
    forall i | 0 <= i < |payload|
      ensures second[i] == first[i]
    {
      assert forall k :: 0 <= k < |first| && k != i ==> first[k].id != first[i].id by {
        forall k | 0 <= k < |first| && k != i
          ensures first[k].id != first[i].id
        {
          if k < i { assert payload[k].id != payload[i].id; } else { assert payload[i].id != payload[k].id; }
        }
      }
      LastIndexOfUniqueId(first, i);
      assert IsMergedEntry(payload[i], first, second[i]);
      if existing.Some? {
        MergedEntryAbsorbs(payload[i], existing.value, first[i]);
      } else {
        OverlayAbsorbs(payload[i], payload[i]);
      }
    }
  }

  /** The duplicate-free condition of MergeIdempotent cannot be dropped. */
  lemma MergeNotIdempotentOnDuplicateIds()
    ensures var a := Recipe("a", "Soup", [], "", None, None, None);
            var b := Recipe("a", "Stew", [], "", None, None, None);
            MergeWithCache([a, b], Some(MergeWithCache([a, b], None))) != MergeWithCache([a, b], None)
  {
    var a := Recipe("a", "Soup", [], "", None, None, None);
    var b := Recipe("a", "Stew", [], "", None, None, None);
    var once := MergeWithCache([a, b], None);
    var twice := MergeWithCache([a, b], Some(once));
    assert LastIndexWithId(once, "a") == Some(1);
    assert twice[0].name == "Stew";
  }

  /** A favourite set locally survives a refetch whose server copy says otherwise. */
  lemma FavoriteSurvivesRefetch()
    ensures var cached := Recipe("a", "Soup", [], "", None, None, Some(true));
            var server := Recipe("a", "Soup", [], "", None, None, Some(false));
            var merged := MergeWithCache([server], Some([cached]));
            |merged| == 1 && merged[0].favorite == Some(true) && merged[0].name == "Soup"
  {
    var cached := Recipe("a", "Soup", [], "", None, None, Some(true));
    assert LastIndexWithId([cached], "a") == Some(0);
  }

  /** The cache wins on every key it holds, not only on `favorite`: a renamed server copy keeps the cached name. */
  lemma CachedNameHidesServerRename()
    ensures var cached := Recipe("a", "Soup", [], "", None, None, Some(false));
            var server := Recipe("a", "Tomato soup", [], "", None, None, Some(false));
            MergeWithCache([server], Some([cached]))[0].name == "Soup"
  {
    var cached := Recipe("a", "Soup", [], "", None, None, Some(false));
    assert LastIndexWithId([cached], "a") == Some(0);
  }

  // ---------------------------------------------------------------------------
  // Rejected actions

  /** `(action.payload as string) || fallback`: never empty when the fallback is not. */
  function RejectionMessage(payload: string, fallback: string): (r: string)
    requires fallback != ""
    ensures r != ""
    ensures payload != "" ==> r == payload
    ensures payload == "" ==> r == fallback
  {
    if payload != "" then payload else fallback
  }

  /** How a recipe thunk fails: a non-ok HTTP status, or an exception with its `message` ("" when it has none). */
  datatype ThunkFailure = NotOk | Threw(message: string)

  /** The value a recipe thunk passes to `rejectWithValue`: its own message for a non-ok status, else `err.message || 'Unexpected error'`. */
  function ThunkRejection(failure: ThunkFailure, notOkMessage: string): (r: string)
    requires notOkMessage != ""
    ensures r != ""
    ensures failure.NotOk? ==> r == notOkMessage
    ensures failure.Threw? && failure.message != "" ==> r == failure.message
    ensures failure == Threw("") ==> r == "Unexpected error"
  {
    match failure
    case NotOk => notOkMessage
    case Threw(m) => if m != "" then m else "Unexpected error"
  }

  /** Every rejection a thunk produces is non-empty, so the reducers' own fallback strings never show for them. */
  lemma ThunkRejectionKeepsPayload(failure: ThunkFailure, notOkMessage: string, fallback: string)
    requires notOkMessage != "" && fallback != ""
    ensures RejectionMessage(ThunkRejection(failure, notOkMessage), fallback) == ThunkRejection(failure, notOkMessage)
  {
  }

  // ---------------------------------------------------------------------------
  // The store

  /** `RecipesState`: everything the slice holds. */
  datatype RecipesState = RecipesState(
    recipeList: seq<Recipe>,
    singleRecipe: Option<Recipe>,
    loading: bool,
    error: string,
    addLoading: bool,
    updateLoading: bool,
    deleteLoading: bool,
    search: string,
    categoryFilter: string)

  const InitialState := RecipesState([], None, false, "", false, false, false, "", "all")

  /**
   * The slice's state, changed in place by its reducers, together with the durable cache.
   * `cache` is what `loadFromLS` returns: `None` for absent or unparseable data.
   */
  class RecipeStore {
    var recipeList: seq<Recipe>
    var singleRecipe: Option<Recipe>
    var loading: bool
    var error: string
    var addLoading: bool
    var updateLoading: bool
    var deleteLoading: bool
    var search: string
    var categoryFilter: string
    var cache: Option<seq<Recipe>>

    function State(): RecipesState
      reads this
    {
      RecipesState(recipeList, singleRecipe, loading, error, addLoading, updateLoading,
                   deleteLoading, search, categoryFilter)
    }

    /** The store at start-up: `initialState`, over whatever the cache already holds. */
    constructor (persisted: Option<seq<Recipe>>)
      ensures State() == InitialState && cache == persisted
    {
      recipeList, singleRecipe := [], None;
      loading, error := false, "";
      addLoading, updateLoading, deleteLoading := false, false, false;
      search, categoryFilter := "", "all";
      cache := persisted;
    }

    /** `saveToLS(state.recipeList)` */
    method SaveToLS()
      modifies this`cache
      ensures cache == Some(recipeList)
    {
      cache := Some(recipeList);
    }

    /** `setSearch` */
    method SetSearch(term: string)
      modifies this
      ensures State() == old(State()).(search := term) && cache == old(cache)
    {
      search := term;
    }

    /** `setCategoryFilter` */
    method SetCategoryFilter(category: string)
      modifies this
      ensures State() == old(State()).(categoryFilter := category) && cache == old(cache)
    {
      categoryFilter := category;
    }

    /**
     * `toggleFavoriteLocal`: flips the flag of the first recipe with `id`, copies the new
     * value into the detail record when it has that id, and saves the list. An unknown id
     * changes nothing, the cache included.
     */
    method ToggleFavoriteLocal(id: string)
      modifies this
      ensures match FirstIndexWithId(old(recipeList), id)
        case None => State() == old(State()) && cache == old(cache)
        case Some(i) =>
          && recipeList == old(recipeList)[i := ToggledFavorite(old(recipeList)[i])]
          && singleRecipe == (if old(singleRecipe).Some? && old(singleRecipe).value.id == id
                              then Some(old(singleRecipe).value.(favorite := recipeList[i].favorite))
                              else old(singleRecipe))
          && State() == old(State()).(recipeList := recipeList, singleRecipe := singleRecipe)
          && cache == Some(recipeList)
    {
      var found := FirstIndexWithId(recipeList, id);
      if found.Some? {
        var i := found.value;
        var r := ToggledFavorite(recipeList[i]);
        recipeList := recipeList[i := r];
        if singleRecipe.Some? && singleRecipe.value.id == r.id {
          singleRecipe := Some(singleRecipe.value.(favorite := r.favorite));
        }
        SaveToLS();
      }
    }

    /** `hydrateFromLocal`: the cached list replaces the list when there is one; otherwise nothing changes. */
    method HydrateFromLocal()
      modifies this
      ensures cache == old(cache)
      ensures State() == old(State()).(recipeList := if cache.Some? then cache.value else old(recipeList))
    {
      var persisted := cache;
      if persisted.Some? {
        recipeList := persisted.value;
      }
    }

    /** `fetchRecipes.pending` */
    method FetchRecipesPending()
      modifies this
      ensures State() == old(State()).(loading := true, error := "") && cache == old(cache)
    {
      loading := true;
      error := "";
    }

    /** `fetchRecipes.fulfilled`: the server list merged with the cache, then saved. */
    method FetchRecipesFulfilled(payload: seq<Recipe>)
      modifies this
      ensures recipeList == MergeWithCache(payload, old(cache))
      ensures cache == Some(recipeList)
      ensures State() == old(State()).(loading := false, recipeList := recipeList)
    {
      loading := false;
      var existing := cache;
      recipeList := MergeWithCache(payload, existing);
      SaveToLS();
    }

    /** `fetchRecipes.rejected` */
    method FetchRecipesRejected(payload: string)
      modifies this
      ensures State() == old(State()).(loading := false, error := RejectionMessage(payload, "Error in fetch data"))
      ensures cache == old(cache)
    {
      loading := false;
      error := RejectionMessage(payload, "Error in fetch data");
    }

    /** `addNewRecipe.pending` */
    method AddNewRecipePending()
      modifies this
      ensures State() == old(State()).(addLoading := true, error := "") && cache == old(cache)
    {
      addLoading := true;
      error := "";
    }

    /** `addNewRecipe.fulfilled`: the server's record goes at the end, then the list is saved. */
    method AddNewRecipeFulfilled(payload: Recipe)
      modifies this
      ensures recipeList == old(recipeList) + [payload]
      ensures cache == Some(recipeList)
      ensures State() == old(State()).(addLoading := false, recipeList := recipeList)
    {
      addLoading := false;
      recipeList := recipeList + [payload];
      SaveToLS();
    }

    /** `addNewRecipe.rejected` */
    method AddNewRecipeRejected(payload: string)
      modifies this
      ensures State() == old(State()).(addLoading := false, error := RejectionMessage(payload, "Error in post data"))
      ensures cache == old(cache)
    {
      addLoading := false;
      error := RejectionMessage(payload, "Error in post data");
    }

    /** `fetchRecipeById.pending`: the same `loading` flag as the list fetch. */
    method FetchRecipeByIdPending()
      modifies this
      ensures State() == old(State()).(loading := true, error := "") && cache == old(cache)
    {
      loading := true;
      error := "";
    }

    /** `fetchRecipeById.fulfilled`: sets the detail record; the list and the cache stay. */
    method FetchRecipeByIdFulfilled(payload: Recipe)
      modifies this
      ensures State() == old(State()).(loading := false, singleRecipe := Some(payload)) && cache == old(cache)
    {
      loading := false;
      singleRecipe := Some(payload);
    }

    /** `fetchRecipeById.rejected` */
    method FetchRecipeByIdRejected(payload: string)
      modifies this
      ensures State() == old(State()).(loading := false, error := RejectionMessage(payload, "Error in fetch single recipe"))
      ensures cache == old(cache)
    {
      loading := false;
      error := RejectionMessage(payload, "Error in fetch single recipe");
    }

    /** `updateRecipe.pending` */
    method UpdateRecipePending()
      modifies this
      ensures State() == old(State()).(updateLoading := true, error := "") && cache == old(cache)
    {
      updateLoading := true;
      error := "";
    }

    /**
     * `updateRecipe.fulfilled`: the server's record replaces the first entry with its id and
     * the detail record when that has its id; the list is saved even when no entry matched.
     */
    method UpdateRecipeFulfilled(payload: Recipe)
      modifies this
      ensures recipeList == match FirstIndexWithId(old(recipeList), payload.id)
                            case Some(i) => old(recipeList)[i := payload]
                            case None => old(recipeList)
      ensures singleRecipe == if old(singleRecipe).Some? && old(singleRecipe).value.id == payload.id
                              then Some(payload) else old(singleRecipe)
      ensures cache == Some(recipeList)
      ensures State() == old(State()).(updateLoading := false, recipeList := recipeList, singleRecipe := singleRecipe)
    {
      updateLoading := false;
      var found := FirstIndexWithId(recipeList, payload.id);
      if found.Some? {
        recipeList := recipeList[found.value := payload];
      }
      if singleRecipe.Some? && singleRecipe.value.id == payload.id {
        singleRecipe := Some(payload);
      }
      SaveToLS();
    }

    /** `updateRecipe.rejected` */
    method UpdateRecipeRejected(payload: string)
      modifies this
      ensures State() == old(State()).(updateLoading := false, error := RejectionMessage(payload, "Error updating recipe"))
      ensures cache == old(cache)
    {
      updateLoading := false;
      error := RejectionMessage(payload, "Error updating recipe");
    }

    /** `deleteRecipe.pending` */
    method DeleteRecipePending()
      modifies this
      ensures State() == old(State()).(deleteLoading := true, error := "") && cache == old(cache)
    {
      deleteLoading := true;
      error := "";
    }

    /** `deleteRecipe.fulfilled`: every entry with the id goes, the detail record is cleared when it has the id, and the list is saved. */
    method DeleteRecipeFulfilled(id: string)
      modifies this
      ensures recipeList == WithoutId(old(recipeList), id)
      ensures singleRecipe == if old(singleRecipe).Some? && old(singleRecipe).value.id == id
                              then None else old(singleRecipe)
      ensures cache == Some(recipeList)
      ensures State() == old(State()).(deleteLoading := false, recipeList := recipeList, singleRecipe := singleRecipe)
    {
      deleteLoading := false;
      recipeList := WithoutId(recipeList, id);
      if singleRecipe.Some? && singleRecipe.value.id == id {
        singleRecipe := None;
      }
      SaveToLS();
    }

    /** `deleteRecipe.rejected` */
    method DeleteRecipeRejected(payload: string)
      modifies this
      ensures State() == old(State()).(deleteLoading := false, error := RejectionMessage(payload, "Error deleting recipe"))
      ensures cache == old(cache)
    {
      deleteLoading := false;
      error := RejectionMessage(payload, "Error deleting recipe");
    }
  }

  // ---------------------------------------------------------------------------
  // Sequences of actions

  /**
   * A favourite toggled before a reload is there again once the new store hydrates
   * from the cache. With no entry for the id nothing is saved, so the new store
   * shows whatever the cache held before (or the empty list without a cache).
   */
  method ToggleThenReload(s: RecipeStore, id: string) returns (reloaded: RecipeStore)
    modifies s
    ensures fresh(reloaded)
    ensures s.recipeList == match FirstIndexWithId(old(s.recipeList), id)
      case Some(i) => old(s.recipeList)[i := ToggledFavorite(old(s.recipeList)[i])]
      case None => old(s.recipeList)
    ensures HasId(old(s.recipeList), id) ==> reloaded.recipeList == s.recipeList
    ensures !HasId(old(s.recipeList), id) ==>
      reloaded.recipeList == (if old(s.cache).Some? then old(s.cache).value else [])
    ensures reloaded.cache == s.cache
    ensures reloaded.State() == InitialState.(recipeList := reloaded.recipeList)
  {
    s.ToggleFavoriteLocal(id);
    reloaded := new RecipeStore(s.cache);
    reloaded.HydrateFromLocal();
  }

  /** Fetching the detail record and then deleting that recipe clears the detail and removes it from the list. */
  method FetchOneThenDelete(s: RecipeStore, r: Recipe)
    modifies s
    ensures s.singleRecipe == None
    ensures forall k :: 0 <= k < |s.recipeList| ==> s.recipeList[k].id != r.id
  {
    s.FetchRecipeByIdPending();
    s.FetchRecipeByIdFulfilled(r);
    s.DeleteRecipePending();
    s.DeleteRecipeFulfilled(r.id);
  }

  /** A failed add leaves the list and the cache as they were; the shared error now holds the add's message. */
  method FailedAdd(s: RecipeStore, payload: string)
    modifies s
    ensures s.recipeList == old(s.recipeList) && s.cache == old(s.cache)
    ensures s.error == RejectionMessage(payload, "Error in post data") && !s.addLoading
  {
    s.AddNewRecipePending();
    s.AddNewRecipeRejected(payload);
  }
}
