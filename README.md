# Recipe-Book: the client's state machines and the server's token check, in Dafny

This project models the parts of the Recipe-Book application that hold logic:

- **The client's recipe store.** This is the `recipe` Redux slice. It holds the recipe list, the detail record, the loading flags, one shared error string, the search and category fields, and the durable cache behind `loadFromLS`/`saveToLS`. Its 4 reducers and 15 async phase cases change these fields in place. `RecipesSlice.RecipeStore` is a class with the same fields, one method per reducer or phase, and ensures that state the whole new state. The fetch-time merge with the cache is pure: `MergeWithCache`, with its lemmas.
- **The recipe list page.** This covers:
  - the `filtered` view: case-insensitive search over the name and the ingredients, plus an exact category match;
  - what the page dispatches on mount: hydrate, then fetch;
  - the `id`/`updates` split of `handleUpdate`;
  - the spinner/error/list choice.
- **The add/edit drawer.** This covers:
  - the form state;
  - the ingredient list editors;
  - the prefill when the drawer opens;
  - the submit handler, which validates, cleans, and then calls `onUpdate` or dispatches `addNewRecipe`.
- **The detail page.** This covers the instruction steps (split at `\n`, `.` and `=>`, trimmed, blank pieces dropped) and the render precedence.
- **The client's auth session.** This is the `auth` slice: the session read from storage at start-up, `logout`, and the signup/login phases. These keep the session fields and the three storage keys in step. `AuthSlice.AuthStore` is the class.
- **The server's `protect` middleware.** It takes the token from a `Bearer` header, answers 401 with one of two messages, or records the decoded claims and calls `next`.

Some JavaScript operations get their own small models in `text.dfy`:

- `trim` uses the exact ECMAScript whitespace set.
- `includes` is proved equivalent to "occurs as a contiguous block".
- `toLowerCase` covers ASCII letters only.
- `map(trim).filter(Boolean)` is modelled too.

Values that come from outside become parameters: server payloads, rejection messages, the fresh recipe id from `crypto.randomUUID`, the `JWT_SECRET` environment value and `jwt.verify` (a function argument returning `None` where it throws). Each thunk phase is one atomic transition.

Three facts about the code that a reader might not expect:

- **Cache-only recipes.** A fetch maps over the server list only (recipesSlice.ts:213), so recipes that only the cache holds are dropped. `MergeWithCache` states this.
- **Operation status.** There is one shared `error` string for every operation (recipesSlice.ts:30-40), and `fetchRecipes` and `fetchRecipeById` share one `loading` flag.
- **Merge idempotence.** Re-merging is idempotent only when the server ids are distinct (`MergeIdempotent`). `MergeNotIdempotentOnDuplicateIds` is the counterexample when ids repeat.

## Model

| member | source | states |
|---|---|---|
| Text.Trim | client/src/components/RecipeDrawer.tsx:102 | the result is empty iff the input is all whitespace, and neither end of the result is whitespace |
| Text.TrimIsCore | client/src/components/RecipeDrawer.tsx:102 | the trimmed string is the input with a blank prefix and a blank suffix cut off |
| Text.TrimOfTrimmed | client/src/components/RecipeDrawer.tsx:117 | trimming a string whose ends are not whitespace returns it unchanged, so trimming twice equals trimming once |
| Text.Includes | client/src/components/RecipesList.tsx:49 | true iff the needle occurs as a contiguous block of the haystack |
| Text.ToLower | client/src/components/RecipesList.tsx:49-51 | `toLowerCase` on ASCII: the length is kept, no upper-case ASCII letter remains, an upper-case letter becomes its lower-case partner, and every other character is kept |
| Text.TrimAndDropEmpty | client/src/components/RecipeDrawer.tsx:103-105 | the elements are non-empty and trimmed; the result is empty iff every part is blank; its length is the number of non-blank parts; it is an order-preserving subsequence of the trimmed parts |
| RecipesSlice.ToggledFavorite | client/src/features/recipes/recipesSlice.ts:186 | the flag as read in a condition flips (an absent flag counts as false), the key becomes present, and no other field changes |
| RecipesSlice.ToggleTwice | client/src/features/recipes/recipesSlice.ts:186 | two toggles restore the flag's truth value; they restore the record itself exactly when the key was present |
| RecipesSlice.FirstIndexWithId | client/src/features/recipes/recipesSlice.ts:269-271 | the index found holds the id and no earlier entry does; there is no index iff no entry has the id |
| RecipesSlice.WithoutId | client/src/features/recipes/recipesSlice.ts:292-294 | no entry with the id remains; every entry with another id is kept; the order is kept; exactly the entries with the id are gone |
| RecipesSlice.WithoutAbsentId | client/src/features/recipes/recipesSlice.ts:292-294 | deleting an id that no entry has leaves the list unchanged |
| RecipesSlice.OverlayAbsorbs | client/src/features/recipes/recipesSlice.ts:213-216 | overlaying the server record again with an already overlaid record changes nothing, and overlaying a record with itself changes nothing |
| RecipesSlice.Pick | client/src/features/recipes/recipesSlice.ts:213-216 | one optional key of `{ ...srv, ...cached }`: a key present in the cached record wins; an absent one keeps the server's value; the key is present iff either record has it |
| RecipesSlice.Overlay | client/src/features/recipes/recipesSlice.ts:213-216 | `{ ...srv, ...cached }`: the required keys come from the cached record; each optional key comes from the cached record when present there and from the server's otherwise; a cached record with every key present is the result |
| RecipesSlice.MergedEntryAbsorbs | client/src/features/recipes/recipesSlice.ts:213-216 | overlaying a merged record on its server record again leaves it unchanged |
| RecipesSlice.IndexById | client/src/features/recipes/recipesSlice.ts:212 | the map's keys are exactly the ids in the list, and each key maps to the last entry with that id |
| RecipesSlice.MergeWithCache | client/src/features/recipes/recipesSlice.ts:210-219 | the server list's length and id order are kept; with no cache it is the payload itself; otherwise each entry is the server record overlaid by the last cached record with its id, or the server record when the cache has no such id; cache-only recipes do not appear |
| RecipesSlice.MergeIdempotent | client/src/features/recipes/recipesSlice.ts:210-220 | with distinct server ids, a second fetch of the same server list over the cache the first fetch wrote gives the same list |
| RecipesSlice.MergeNotIdempotentOnDuplicateIds | client/src/features/recipes/recipesSlice.ts:212-216 | with two server records sharing an id, a second fetch changes the list, so the distinct-id condition is needed |
| RecipesSlice.FavoriteSurvivesRefetch | client/src/features/recipes/recipesSlice.ts:213-216 | a cached `favorite: true` wins over a server copy with `favorite: false`, and the name is kept |
| RecipesSlice.CachedNameHidesServerRename | client/src/features/recipes/recipesSlice.ts:213-216 | the cache wins on every key, so a server-side rename is hidden by the cached name |
| RecipesSlice.RejectionMessage | client/src/features/recipes/recipesSlice.ts:225 | `payload \|\| fallback`: the payload when it is non-empty, else the fallback, so never empty |
| RecipesSlice.ThunkRejection | client/src/features/recipes/recipesSlice.ts:47-55 | a non-ok status rejects with the thunk's own message; an exception rejects with its message, or `'Unexpected error'` when that is empty; so the value is never empty |
| RecipesSlice.ThunkRejectionKeepsPayload | client/src/features/recipes/recipesSlice.ts:47-55 | because every thunk rejection is non-empty, the reducers' fallback strings never replace it |
| RecipesSlice.RecipeStore.constructor | client/src/features/recipes/recipesSlice.ts:30-40 | the state is `initialState` over whatever the cache holds |
| RecipesSlice.RecipeStore.SaveToLS | client/src/features/recipes/recipesSlice.ts:165-171 | the cache becomes the current list |
| RecipesSlice.RecipeStore.SetSearch | client/src/features/recipes/recipesSlice.ts:177-179 | only `search` changes |
| RecipesSlice.RecipeStore.SetCategoryFilter | client/src/features/recipes/recipesSlice.ts:180-182 | only `categoryFilter` changes |
| RecipesSlice.RecipeStore.ToggleFavoriteLocal | client/src/features/recipes/recipesSlice.ts:183-192 | an unknown id changes neither state nor cache; otherwise the first entry with the id is toggled, the detail record takes the new flag when it has the id, nothing else changes, and the list is saved |
| RecipesSlice.RecipeStore.HydrateFromLocal | client/src/features/recipes/recipesSlice.ts:193-198 | the cached list replaces the list when there is one (an empty array counts); otherwise nothing changes |
| RecipesSlice.RecipeStore.FetchRecipesPending | client/src/features/recipes/recipesSlice.ts:202-205 | sets `loading`, clears the shared error, and changes nothing else |
| RecipesSlice.RecipeStore.FetchRecipesFulfilled | client/src/features/recipes/recipesSlice.ts:206-222 | the list becomes the merge of the payload with the cache as it was, and is saved; `loading` clears |
| RecipesSlice.RecipeStore.FetchRecipesRejected | client/src/features/recipes/recipesSlice.ts:223-226 | clears `loading` and sets the error to the payload or `'Error in fetch data'`; list, detail and cache are unchanged |
| RecipesSlice.RecipeStore.AddNewRecipePending | client/src/features/recipes/recipesSlice.ts:227-230 | sets `addLoading` and clears the error |
| RecipesSlice.RecipeStore.AddNewRecipeFulfilled | client/src/features/recipes/recipesSlice.ts:231-239 | the payload is appended with the prefix unchanged, and the list is saved |
| RecipesSlice.RecipeStore.AddNewRecipeRejected | client/src/features/recipes/recipesSlice.ts:240-243 | clears `addLoading` and sets the error (default `'Error in post data'`); list, detail and cache are unchanged |
| RecipesSlice.RecipeStore.FetchRecipeByIdPending | client/src/features/recipes/recipesSlice.ts:244-247 | sets the shared `loading` flag and clears the error |
| RecipesSlice.RecipeStore.FetchRecipeByIdFulfilled | client/src/features/recipes/recipesSlice.ts:248-254 | sets the detail record; the list and the cache stay |
| RecipesSlice.RecipeStore.FetchRecipeByIdRejected | client/src/features/recipes/recipesSlice.ts:255-259 | clears `loading` and sets the error (default `'Error in fetch single recipe'`) |
| RecipesSlice.RecipeStore.UpdateRecipePending | client/src/features/recipes/recipesSlice.ts:261-264 | sets `updateLoading` and clears the error |
| RecipesSlice.RecipeStore.UpdateRecipeFulfilled | client/src/features/recipes/recipesSlice.ts:265-278 | only the first entry with the payload's id is replaced (no match: the list is unchanged); the detail record is replaced only when it has that id; the list is saved |
| RecipesSlice.RecipeStore.UpdateRecipeRejected | client/src/features/recipes/recipesSlice.ts:279-282 | clears `updateLoading` and sets the error (default `'Error updating recipe'`) |
| RecipesSlice.RecipeStore.DeleteRecipePending | client/src/features/recipes/recipesSlice.ts:284-287 | sets `deleteLoading` and clears the error |
| RecipesSlice.RecipeStore.DeleteRecipeFulfilled | client/src/features/recipes/recipesSlice.ts:288-300 | every entry with the id goes; the detail record becomes null only when it has the id; the list is saved |
| RecipesSlice.RecipeStore.DeleteRecipeRejected | client/src/features/recipes/recipesSlice.ts:301-304 | clears `deleteLoading` and sets the error (default `'Error deleting recipe'`) |
| RecipesSlice.ToggleThenReload | client/src/features/recipes/recipesSlice.ts:183-198 | the list afterwards is the old list with the first entry for the id toggled, or unchanged when no entry has it; a new store hydrated from the cache shows the toggled list, or, with no entry for the id, whatever the cache held before (the empty list without a cache); the rest of the new store is `initialState` |
| RecipesSlice.FetchOneThenDelete | client/src/features/recipes/recipesSlice.ts:244-300 | fetching a recipe and then deleting it clears the detail record and leaves no entry with its id |
| RecipesSlice.FailedAdd | client/src/features/recipes/recipesSlice.ts:227-243 | a failed add leaves the list and the cache as they were and sets the shared error |
| RecipesList.SomeIngredientIncludes | client/src/components/RecipesList.tsx:50-52 | true iff the term occurs in some lower-cased ingredient |
| RecipesList.MatchesSearch | client/src/components/RecipesList.tsx:47-52 | a recipe matches iff the search is empty, or the lower-cased search occurs in the lower-cased name or in some lower-cased ingredient |
| RecipesList.MatchesCategory | client/src/components/RecipesList.tsx:53-56 | `'all'` and the empty filter let every recipe through; any other filter passes only a recipe whose category equals it, so a recipe without a category passes only those two |
| RecipesList.Filtered | client/src/components/RecipesList.tsx:46-58 | the result is an order-preserving subsequence of the list; every element passes both tests; each recipe that passes occurs as often as in the list, and one that fails does not occur; so the shown count is at most the total |
| RecipesList.FilteredKeepsEveryMatch | client/src/components/RecipesList.tsx:46-58 | every list entry that passes both tests is displayed |
| RecipesList.NoCriteriaShowsAll | client/src/components/RecipesList.tsx:46-58 | with an empty search and the filter `'all'` or `''`, the view is the list itself |
| RecipesList.UncategorizedHidden | client/src/components/RecipesList.tsx:53-56 | a recipe without a category fails every filter other than `'all'` and `''` |
| RecipesList.CategoryOnlyNarrows | client/src/components/RecipesList.tsx:53-57 | a category filter only removes recipes from the search result, in order |
| RecipesList.TomaFindsOnlyPasta | client/src/components/RecipesList.tsx:47-52 | `toma` is found in `tomato` and in neither `Cake` nor `flour` |
| RecipesList.FilterCompositionExample | client/src/components/RecipesList.tsx:46-58 | for the Pasta/Cake collection: `toma` shows only Pasta, `Dessert` shows only Cake, and both together show nothing |
| RecipesList.SplitUpdate | client/src/components/RecipesList.tsx:100-101 | the id goes out separately and the updates carry no id; putting the id back gives the edited recipe |
| RecipesList.JoinThenSplit | client/src/components/RecipesList.tsx:100-101 | splitting a joined record gives back the same id and updates |
| RecipesList.JoinUpdate | client/src/components/RecipesList.tsx:100-101 | `{ id, ...updates }`: the record has the given id and exactly the given updated fields |
| RecipesList.Mount | client/src/components/RecipesList.tsx:41-73 | hydrate comes before the fetch: while loading the store holds the hydrated list and the page shows the spinner; a failed fetch keeps that list in the store and the page shows the error; a successful fetch stores the merge with the cache and the page lists it with the full count; `loading` ends false |
| RecipesList.Screen | client/src/components/RecipesList.tsx:60-161 | a spinner while loading; then the error when it is non-empty; then the filtered cards with "Showing X of Y", where X is at most Y |
| RecipeDrawer.Prefill | client/src/components/RecipeDrawer.tsx:57-63 | no recipe gives empty strings and one empty ingredient; otherwise the recipe's fields, with absent optional fields as `''`; an empty ingredient array is kept |
| RecipeDrawer.RemovedAt | client/src/components/RecipeDrawer.tsx:95 | exactly position `idx` is removed and the rest keep their order; an index past the end removes nothing |
| RecipeDrawer.RemoveUndoesAdd | client/src/components/RecipeDrawer.tsx:88-97 | removing the ingredient just added restores the list |
| RecipeDrawer.CleanedIngredients | client/src/components/RecipeDrawer.tsx:103-105 | every cleaned ingredient is non-empty and trimmed; none remain iff every ingredient is blank |
| RecipeDrawer.Validate | client/src/components/RecipeDrawer.tsx:101-109 | each field's message is present iff that field fails, with the source's exact text, and no other key appears; there are no errors iff the form is submittable |
| RecipeDrawer.Submit | client/src/components/RecipeDrawer.tsx:99-129 | the outcome is the errors iff the form is not submittable, and those errors report exactly the failing fields; `onUpdate` gets the recipe's id with the cleaned fields exactly when the form is submittable in edit mode with a recipe and a handler; otherwise `addNewRecipe` gets the fresh id with the cleaned fields |
| RecipeDrawer.OptionalTrimmed | client/src/components/RecipeDrawer.tsx:120-121 | absent iff the input is blank; otherwise the trimmed, non-empty value |
| RecipeDrawer.CleanedBase | client/src/components/RecipeDrawer.tsx:116-122 | `base`: name and instructions trimmed, empty iff blank in the form; ingredients non-empty and trimmed, none left iff every form ingredient is blank; each optional field absent iff blank in the form |
| RecipeDrawer.WithId | client/src/components/RecipeDrawer.tsx:125 | `{ id: recipe.id, ...base }`: the recipe's id with exactly the cleaned fields |
| RecipeDrawer.NewRecipe | client/src/components/RecipeDrawer.tsx:127 | `{ id: crypto.randomUUID(), ...base }`: the fresh id, exactly the cleaned fields, and no `favorite` key |
| RecipeDrawer.SubmittedBaseIsClean | client/src/components/RecipeDrawer.tsx:116-122 | a submittable form yields a non-empty trimmed name and instructions, at least one ingredient with none empty or untrimmed, and optional fields that are absent or non-empty and trimmed |
| RecipeDrawer.DrawerForm.constructor | client/src/components/RecipeDrawer.tsx:43-51 | the form starts prefilled from the initial `recipe` prop, with no errors |
| RecipeDrawer.DrawerForm.PrefillEffect | client/src/components/RecipeDrawer.tsx:55-66 | while the drawer is open, the form is refilled and the errors are cleared; when it is closed, nothing changes |
| RecipeDrawer.DrawerForm.HandleChange | client/src/components/RecipeDrawer.tsx:68-78 | the named input takes the value and its error becomes `''` |
| RecipeDrawer.DrawerForm.HandleIngredientChange | client/src/components/RecipeDrawer.tsx:80-86 | only position `idx` changes, to the value; the length and the other fields are kept |
| RecipeDrawer.DrawerForm.AddIngredient | client/src/components/RecipeDrawer.tsx:88-90 | one `''` is appended and nothing else changes |
| RecipeDrawer.DrawerForm.RemoveIngredient | client/src/components/RecipeDrawer.tsx:92-97 | the ingredients lose position `idx` and nothing else changes |
| RecipeDrawer.DrawerForm.HandleSubmit | client/src/components/RecipeDrawer.tsx:99-138 | the submit is rejected iff the form is not submittable, and then the errors are stored and the form and drawer stay; otherwise `onUpdate` gets `recipe.id` and the cleaned fields exactly when in edit mode with both a recipe and a handler, else `addNewRecipe` gets the fresh id; after either, the drawer closes and the form is blank |
| RecipeDetail.Split | client/src/pages/RecipeDetail.tsx:25 | always at least one piece |
| RecipeDetail.SplitPiecesClean | client/src/pages/RecipeDetail.tsx:25 | no piece contains `\n`, `.` or `=>` |
| RecipeDetail.SplitRoundTrip | client/src/pages/RecipeDetail.tsx:25 | putting the separators found back between the pieces gives the text |
| RecipeDetail.SplitOfInterleave | client/src/pages/RecipeDetail.tsx:25 | separator-free pieces joined by separators split back into the same pieces |
| RecipeDetail.Steps | client/src/pages/RecipeDetail.tsx:21-28 | no detail record gives no steps; otherwise the steps are the non-blank pieces trimmed, in text order, as many as there are non-blank pieces; no step is empty, has whitespace at either end, or contains a separator |
| RecipeDetail.SingleStep | client/src/pages/RecipeDetail.tsx:24-27 | non-blank instructions without a separator make exactly one step, the trimmed text |
| RecipeDetail.BlankInstructionsNoSteps | client/src/pages/RecipeDetail.tsx:24-27 | blank instructions make no step |
| RecipeDetail.Screen | client/src/pages/RecipeDetail.tsx:30-113 | the order is loading, then a non-empty error, then the missing record, then the details; a numbered list appears only with more than one step, otherwise the instructions verbatim |
| RecipeDetail.OneSentenceShownRaw | client/src/pages/RecipeDetail.tsx:101-113 | instructions without a separator are shown as written |
| AuthSlice.ParseSerialize | client/src/features/auth/authSlice.ts:113 | reading back a stored user gives the same user |
| AuthSlice.Parse | client/src/features/auth/authSlice.ts:6 | `JSON.parse` of a stored user: the empty string does not parse; `ParseSerialize` states that every serialized user parses back to itself |
| AuthSlice.Serialize | client/src/features/auth/authSlice.ts:113 | a stored user is never the empty string, which the start-up check would skip |
| AuthSlice.InitialState | client/src/features/auth/authSlice.ts:4-86 | the module fails to load exactly when a non-empty stored user does not parse; otherwise `isAuthenticated` is true iff the flag is exactly `'true'`, the user is the parse of the stored user when that is non-empty and null otherwise, the token is the stored one when it is non-empty and null otherwise, `loading` is false and `error` is null |
| AuthSlice.Persisted | client/src/features/auth/authSlice.ts:112-114 | the storage gains the flag `'true'`, the serialized user and the token; other keys are kept |
| AuthSlice.Cleared | client/src/features/auth/authSlice.ts:96-98 | the three keys are removed and every other key is kept |
| AuthSlice.ReloadAfterSignIn | client/src/features/auth/authSlice.ts:107-115 | with a non-empty token, re-reading storage written by a sign-in restores `isAuthenticated`, `user` and `token` |
| AuthSlice.ReloadLosesEmptyToken | client/src/features/auth/authSlice.ts:85 | an empty token is stored as `''` and comes back as null |
| AuthSlice.ReloadAfterLogout | client/src/features/auth/authSlice.ts:92-99 | re-reading storage after logout gives the anonymous session |
| AuthSlice.ClearedIdempotent | client/src/features/auth/authSlice.ts:96-98 | removing the keys twice equals removing them once |
| AuthSlice.LoggedOut | client/src/features/auth/authSlice.ts:92-95 | signed out, with no user and no token; `loading` and `error` are kept |
| AuthSlice.LoggedOutIdempotent | client/src/features/auth/authSlice.ts:92-95 | logging out twice gives the same session as once |
| AuthSlice.ThunkOutcome | client/src/features/auth/authSlice.ts:32-44 | an ok response fulfils with the user and token; a non-ok response rejects with the server's message or the default; an exception rejects with its message when it is an `Error`, else with the default |
| AuthSlice.RejectedErrorShown | client/src/features/auth/authSlice.ts:116-119 | the error the rejected case stores is never empty: the failure's own message when it has one to show, otherwise `'Signup failed'`/`'Login failed'` |
| AuthSlice.AuthStore.constructor | client/src/features/auth/authSlice.ts:80-86 | the store starts with the state read from storage |
| AuthSlice.AuthStore.Logout | client/src/features/auth/authSlice.ts:92-99 | the session fields are logged out, `loading`/`error` are kept, and the three keys are removed from storage |
| AuthSlice.AuthStore.Pending | client/src/features/auth/authSlice.ts:103-106 | `loading` is set and `error` becomes null; the session and storage are unchanged |
| AuthSlice.AuthStore.Fulfilled | client/src/features/auth/authSlice.ts:107-115 | authenticated with the payload's user and token, `loading` off; storage holds `'true'`, the serialized user and the token |
| AuthSlice.AuthStore.Rejected | client/src/features/auth/authSlice.ts:116-119 | only `loading` and `error` change; the session and storage stay |
| AuthSlice.AuthStore.Submit | client/src/features/auth/authSlice.ts:103-136 | a successful sign-in stores the session in state and storage; a failed one keeps any existing session and storage, and sets a non-empty error |
| AuthSlice.SignInThenReload | client/src/features/auth/authSlice.ts:107-115 | a store re-created from the written storage has the same session when the token is non-empty |
| AuthMiddleware.SplitOnRoundTrip | server/src/middleware/auth.js:6 | joining the pieces of `split(' ')` with spaces gives the text, and no piece holds a space |
| AuthMiddleware.FirstPieceIsTakeUntil | server/src/middleware/auth.js:6 | the first piece is the text up to the first space |
| AuthMiddleware.SplitOn | server/src/middleware/auth.js:6 | `split(' ')` always gives at least one piece; `SplitOnRoundTrip` and `SplitAfterWord` pin the pieces down |
| AuthMiddleware.TakeUntil | server/src/middleware/auth.js:6 | a prefix of the text with no space in it, followed in the text by a space unless it is the whole text, so the longest such prefix |
| AuthMiddleware.SplitAfterWord | server/src/middleware/auth.js:6 | a word, a space and the rest split into the word followed by the pieces of the rest |
| AuthMiddleware.BearerToken | server/src/middleware/auth.js:4-7 | a token exists iff the header starts with `'Bearer '`, and it is the text after the prefix up to the next space |
| AuthMiddleware.TokenIsSecondField | server/src/middleware/auth.js:6 | `'Bearer a b'` gives `'a'` |
| AuthMiddleware.EmptyTokens | server/src/middleware/auth.js:6-8 | `'Bearer '` and `'Bearer  x'` give the empty token |
| AuthMiddleware.NotBearer | server/src/middleware/auth.js:5-7 | the prefix is case-sensitive and needs its space |
| AuthMiddleware.Secret | server/src/middleware/auth.js:13 | the configured secret when it is non-empty, else `'devsecret'` |
| AuthMiddleware.Decide | server/src/middleware/auth.js:3-20 | the outcome is "Not authenticated" iff there is no token or it is empty; the request goes on iff a non-empty token verifies, with exactly the decoded claims; every refusal carries one of the two messages |
| AuthMiddleware.MissingHeaderRefused | server/src/middleware/auth.js:4-11 | a missing or empty header gives "Not authenticated" |
| AuthMiddleware.BadTokenRefused | server/src/middleware/auth.js:12-19 | a non-empty token that does not verify gives "Invalid or expired token" |
| AuthMiddleware.Exchange.Protect | server/src/middleware/auth.js:3-21 | on success `req.user` is set and `next` is called once with no response written; otherwise a 401 `{status: 'fail', message}` is written, `req.user` is untouched and `next` is not called |

## Left out

- Network I/O inside the thunks (`fetch`, `res.json()`) is not modelled. For the recipe thunks, each outcome is an input to its fulfilled or rejected method. For the auth thunks, the response or exception is an input to `ThunkOutcome`.
- The `JSON.parse` and `JSON.stringify` of the recipe cache are not modelled. The cache is an `Option<seq<Recipe>>`: absent or unparseable data is `None`, and a `saveToLS` write always succeeds (its swallowed quota failure is not modelled).
- `AuthSlice.Serialize`/`Parse` are a small escaping encoder standing in for `JSON.stringify`/`JSON.parse` of the stored user. Only its round trip is relied on. Stored text that is valid JSON but not a user object (for example `null` or a number) counts as unparseable here, while the source would load it as the user.
- `AuthSlice.AuthStore.constructor` requires storage whose user parses: the source's module load throws otherwise, and `InitialState` returns `None` for that case.
- `Text.ToLower` lowers ASCII letters only; Unicode case mapping is not modelled. `Text.Trim` uses the full ECMAScript whitespace set.
- A server record's extra keys (`createdAt`, ... of a recipe) are not modelled, and neither are values of the wrong type, such as a missing `token` stored as `'undefined'`. Records carry exactly the fields of the client's interfaces.
- `crypto.randomUUID` is the `freshId` parameter of `HandleSubmit`.
- `jwt.verify` and `process.env.JWT_SECRET` are parameters of `Decide`/`Protect`. Signature and expiry checking are not modelled.
- The drawer's `onClose` and `addNewRecipe` dispatch are returned as a `Submission` instead of being called. The parent's `setDrawerOpen(false)` is modelled as the `open` field.
- The order in which concurrent thunks complete is not modelled. Every dispatch is one atomic transition, so races between in-flight requests are outside the model.
- The detail page's `fetchRecipeById` effect is not modelled; it only dispatches when the route has an id.
- The server controllers and models, `app.js`, `index.js`, the database and route wiring, `Login.tsx`/`Signup.tsx`, and the presentational and routing components are not part of this model.
- A `next()` that throws inside `protect` would be reported as "Invalid or expired token", because it sits inside the `try`. `Protect` treats `next` as returning normally.
