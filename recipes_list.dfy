/**
 * The recipe list page: the `filtered` view over the store's list, the order of the
 * actions dispatched on mount, the `id`/`updates` split of `handleUpdate`, and the
 * choice between spinner, error and list.
 */
module RecipesList {
  import opened Wrappers
  import opened Text
  import Seqs
  import RecipesSlice
  import RecipeDrawer

  type Recipe = RecipesSlice.Recipe

  // ---------------------------------------------------------------------------
  // The filter

  /** `r.ingredients.some((ing) => ing.toLowerCase().includes(term))`, with `term` already lower-cased. */
  function SomeIngredientIncludes(ingredients: seq<string>, term: string): (b: bool)
    ensures b <==> exists k :: 0 <= k < |ingredients| && IsSubstring(term, ToLower(ingredients[k]))
  {
    if ingredients == [] then false
    else
      var rest := SomeIngredientIncludes(ingredients[1..], term);
      assert forall k :: 1 <= k < |ingredients| ==> ingredients[k] == ingredients[1..][k - 1];
      if Includes(ToLower(ingredients[0]), term) then true else rest
  }

  /**
   * `matchesSearch`: an empty search matches everything; otherwise the lower-cased search
   * must occur in the lower-cased name or in some lower-cased ingredient.
   */
  function MatchesSearch(r: Recipe, search: string): (b: bool)
    ensures b <==>
      || search == ""
      || IsSubstring(ToLower(search), ToLower(r.name))
      || exists k :: 0 <= k < |r.ingredients| && IsSubstring(ToLower(search), ToLower(r.ingredients[k]))
  {
    search == "" || Includes(ToLower(r.name), ToLower(search)) || SomeIngredientIncludes(r.ingredients, ToLower(search))
  }

  /** `matchesCategory`: `'all'` and the empty filter let everything through; any other value must equal the category. */
  predicate MatchesCategory(r: Recipe, categoryFilter: string): (b: bool)
    ensures categoryFilter == "all" || categoryFilter == "" ==> b
    ensures b && categoryFilter != "all" && categoryFilter != "" ==> r.category == Some(categoryFilter)
    ensures r.category.None? ==> (b <==> categoryFilter == "all" || categoryFilter == "")
  {
    categoryFilter == "all" || categoryFilter == "" || r.category == Some(categoryFilter)
  }

  /** The test `filtered` applies to each recipe: both conditions. */
  predicate Shown(r: Recipe, search: string, categoryFilter: string) {
    MatchesSearch(r, search) && MatchesCategory(r, categoryFilter)
  }

  /**
   * `filtered`: the recipes that pass, in list order, each as often as in the list.
   * Being a subsequence with these multiplicities determines the result.
   */
  function Filtered(list: seq<Recipe>, search: string, categoryFilter: string): (r: seq<Recipe>)
    ensures Seqs.IsSubsequence(r, list)
    ensures |r| <= |list|
    ensures forall k :: 0 <= k < |r| ==> Shown(r[k], search, categoryFilter)
    ensures forall x :: multiset(r)[x] == if Shown(x, search, categoryFilter) then multiset(list)[x] else 0
  {
    if list == [] then []
    else
      var rest := Filtered(list[1..], search, categoryFilter);
      assert list == [list[0]] + list[1..];
      Seqs.SubsequenceNoLonger(rest, list[1..]);
      if Shown(list[0], search, categoryFilter) then [list[0]] + rest else rest
  }

  /** Every recipe of the list that passes the test is displayed. */
  lemma FilteredKeepsEveryMatch(list: seq<Recipe>, search: string, categoryFilter: string, k: nat)
    requires k < |list| && Shown(list[k], search, categoryFilter)
    ensures list[k] in Filtered(list, search, categoryFilter)
  {
    assert list[k] in multiset(list);
  }

  /** With no search and no category filter the whole list is shown, unchanged. */
  lemma {:induction false} NoCriteriaShowsAll(list: seq<Recipe>, categoryFilter: string)
    requires categoryFilter == "all" || categoryFilter == ""
    ensures Filtered(list, "", categoryFilter) == list
  {
    if list != [] {
      NoCriteriaShowsAll(list[1..], categoryFilter);
      assert Shown(list[0], "", categoryFilter);
      assert Filtered(list, "", categoryFilter) == [list[0]] + Filtered(list[1..], "", categoryFilter);
      assert list == [list[0]] + list[1..];
    }
  }

  /** A recipe without a category is hidden by every category filter other than `'all'` and `''`. */
  lemma UncategorizedHidden(r: Recipe, search: string, categoryFilter: string)
    requires r.category.None? && categoryFilter != "all" && categoryFilter != ""
    ensures !Shown(r, search, categoryFilter)
    ensures r !in Filtered([r], search, categoryFilter)
  {
    assert Filtered([r], search, categoryFilter) == [];
  }

  /** Narrowing the category can only hide recipes: a filtered list is no longer than the unfiltered search result. */
  lemma {:induction false} CategoryOnlyNarrows(list: seq<Recipe>, search: string, categoryFilter: string)
    ensures Seqs.IsSubsequence(Filtered(list, search, categoryFilter), Filtered(list, search, "all"))
  {
    if list == [] {
    } else {
      CategoryOnlyNarrows(list[1..], search, categoryFilter);
      var rest := Filtered(list[1..], search, categoryFilter);
      var all := Filtered(list[1..], search, "all");
      if Shown(list[0], search, categoryFilter) {
        assert Filtered(list, search, categoryFilter) == [list[0]] + rest;
        assert Filtered(list, search, "all") == [list[0]] + all;
      } else if MatchesSearch(list[0], search) {
        assert Filtered(list, search, "all") == [list[0]] + all;
        SubsequenceOfLonger(rest, all, list[0]);
      }
    }
  }

  /** A subsequence of `b` is a subsequence of `b` with one element put in front. */
  lemma SubsequenceOfLonger<T>(a: seq<T>, b: seq<T>, x: T)
    requires Seqs.IsSubsequence(a, b)
    ensures Seqs.IsSubsequence(a, [x] + b)
  {
    assert ([x] + b)[1..] == b;
  }

  /** A needle whose first character does not occur in the haystack is not a substring of it. */
  lemma NotSubstringWithoutFirstChar(needle: string, hay: string)
    requires needle != [] && needle[0] !in hay
    ensures !IsSubstring(needle, hay)
  {
  }

  /** The two-recipe collection of the filter-composition example. */
  function PastaAndCake(): seq<Recipe> {
    [ RecipesSlice.Recipe("1", "Pasta", ["tomato"], "Boil.", None, Some("Main Course"), None),
      RecipesSlice.Recipe("2", "Cake", ["flour"], "Bake.", None, Some("Dessert"), None) ]
  }

  /** `toma` is found in the pasta's ingredient and in neither the cake's name nor its ingredient. */
  lemma TomaFindsOnlyPasta()
    ensures MatchesSearch(PastaAndCake()[0], "toma")
    ensures !MatchesSearch(PastaAndCake()[1], "toma")
  {
    assert ToLower("toma") == "toma";
    assert ToLower("tomato") == "tomato";
    assert OccursAt("toma", ToLower("tomato"), 0);
    assert ToLower("Cake") == "cake";
    assert ToLower("flour") == "flour";
    NotSubstringWithoutFirstChar("toma", "cake");
    NotSubstringWithoutFirstChar("toma", "flour");
  }

  /** A two-recipe list keeps each of its recipes exactly when that recipe passes. */
  lemma FilteredPair(a: Recipe, b: Recipe, search: string, categoryFilter: string)
    ensures Filtered([a, b], search, categoryFilter) ==
      (if Shown(a, search, categoryFilter) then [a] else []) + (if Shown(b, search, categoryFilter) then [b] else [])
  {
    var list := [a, b];
    assert list[1..] == [b];
    assert list[1..][1..] == [];
  }

  /** Searching `toma` shows only the pasta, the `Dessert` filter only the cake, and both together show nothing. */
  lemma FilterCompositionExample()
    ensures Filtered(PastaAndCake(), "toma", "all") == [PastaAndCake()[0]]
    ensures Filtered(PastaAndCake(), "", "Dessert") == [PastaAndCake()[1]]
    ensures Filtered(PastaAndCake(), "toma", "Dessert") == []
  {
    TomaFindsOnlyPasta();
    var list := PastaAndCake();
    assert list == [list[0], list[1]];
    assert !MatchesCategory(list[0], "Dessert") && MatchesCategory(list[1], "Dessert");
    FilteredPair(list[0], list[1], "toma", "all");
    FilteredPair(list[0], list[1], "", "Dessert");
    FilteredPair(list[0], list[1], "toma", "Dessert");
  }

  // ---------------------------------------------------------------------------
  // Handlers

  /** The `updates` object of `updateRecipe`: the edited recipe without its `id`. */
  datatype RecipeUpdates = RecipeUpdates(
    name: string,
    ingredients: seq<string>,
    instructions: string,
    imageUrl: Option<string>,
    category: Option<string>)

  /** The argument of `updateRecipe`. */
  datatype UpdateArgs = UpdateArgs(id: string, updates: RecipeUpdates)

  /** `{ id, ...rest } = updates` of `handleUpdate`; putting the `id` back gives the edited recipe again. */
  function SplitUpdate(e: RecipeDrawer.EditableRecipe): (a: UpdateArgs)
    ensures a.id == e.id
    ensures JoinUpdate(a) == e
  {
    UpdateArgs(e.id, RecipeUpdates(e.name, e.ingredients, e.instructions, e.imageUrl, e.category))
  }

  /** `{ id, ...updates }`: the record again. */
  function JoinUpdate(a: UpdateArgs): (e: RecipeDrawer.EditableRecipe)
    ensures e.id == a.id
    ensures e.name == a.updates.name && e.ingredients == a.updates.ingredients
    ensures e.instructions == a.updates.instructions
    ensures e.imageUrl == a.updates.imageUrl && e.category == a.updates.category
  {
    RecipeDrawer.EditableRecipe(a.id, a.updates.name, a.updates.ingredients, a.updates.instructions,
                                a.updates.imageUrl, a.updates.category)
  }

  /** The split loses nothing: splitting a joined record gives back the same id and updates. */
  lemma JoinThenSplit(a: UpdateArgs)
    ensures SplitUpdate(JoinUpdate(a)) == a
  {
  }

  /** How the `fetchRecipes` request ends: the server's list, or the rejection message. */
  datatype FetchOutcome = Loaded(payload: seq<Recipe>) | Failed(message: string)

  /**
   * The mount effect: `hydrateFromLocal`, then `fetchRecipes` (its pending phase and
   * then its outcome). While the request runs the store holds the hydrated list but
   * the page shows the spinner; a failed request leaves that list in the store and
   * the page shows the error; a successful one replaces it with the merge of the
   * server's list and the cache, which the hydration does not affect, and the page
   * lists it.
   */
  method Mount(s: RecipesSlice.RecipeStore, outcome: FetchOutcome) returns (whileLoading: seq<Recipe>, loadingScreen: ListScreen)
    modifies s
    ensures whileLoading == if old(s.cache).Some? then old(s.cache).value else old(s.recipeList)
    ensures loadingScreen == Spinner
    ensures outcome.Loaded? ==> s.recipeList == RecipesSlice.MergeWithCache(outcome.payload, old(s.cache))
    ensures outcome.Loaded? ==> s.error == "" && s.cache == Some(s.recipeList)
    ensures outcome.Loaded? ==> Screen(s.State()).Listing? && Screen(s.State()).total == |s.recipeList|
    ensures outcome.Failed? ==> s.recipeList == whileLoading && s.cache == old(s.cache)
    ensures outcome.Failed? ==> s.error == RecipesSlice.RejectionMessage(outcome.message, "Error in fetch data")
    ensures outcome.Failed? ==> Screen(s.State()) == ErrorText(s.error)
    ensures !s.loading
  {
    s.HydrateFromLocal();
    s.FetchRecipesPending();
    whileLoading := s.recipeList;
    loadingScreen := Screen(s.State());
    match outcome
    case Loaded(payload) => s.FetchRecipesFulfilled(payload);
    case Failed(message) => s.FetchRecipesRejected(message);
  }

  // ---------------------------------------------------------------------------
  // Rendering

  /** What the page shows: a spinner, the error, or the filtered cards with the "Showing X of Y" line. */
  datatype ListScreen =
    | Spinner
    | ErrorText(message: string)
    | Listing(shown: seq<Recipe>, total: nat)

  /** The page for a store state: `loading` first, then a non-empty `error`, then the list. */
  function Screen(st: RecipesSlice.RecipesState): (v: ListScreen)
    ensures v.Spinner? <==> st.loading
    ensures v.ErrorText? <==> !st.loading && st.error != ""
    ensures v.ErrorText? ==> v.message == st.error
    ensures v.Listing? ==> v.total == |st.recipeList| && v.shown == Filtered(st.recipeList, st.search, st.categoryFilter)
    ensures v.Listing? ==> |v.shown| <= v.total
  {
    if st.loading then Spinner
    else if st.error != "" then ErrorText(st.error)
    else Listing(Filtered(st.recipeList, st.search, st.categoryFilter), |st.recipeList|)
  }
}
