/**
 * The add/edit drawer: its form state, the ingredient list editors, the prefill on
 * opening, and the submit handler that validates, cleans and hands the recipe on.
 */
module RecipeDrawer {
  import opened Wrappers
  import opened Text
  import RecipesSlice

  /** The `recipe` prop and the argument of `onUpdate`: a recipe without `favorite`. */
  datatype EditableRecipe = EditableRecipe(
    id: string,
    name: string,
    ingredients: seq<string>,
    instructions: string,
    imageUrl: Option<string>,
    category: Option<string>)

  /** `formData`: what the inputs show. */
  datatype FormData = FormData(
    name: string,
    ingredients: seq<string>,
    instructions: string,
    imageUrl: string,
    category: string)

  /** The form after a successful submit: empty strings and one empty ingredient. */
  const BlankForm := FormData("", [""], "", "", "")

  /**
   * The form for `recipe`: each field is `recipe?.field || ''`, the ingredients
   * `recipe?.ingredients || ['']`. An empty ingredient array is truthy, so it is kept.
   */
  function Prefill(recipe: Option<EditableRecipe>): (f: FormData)
    ensures recipe.None? ==> f == BlankForm
    ensures recipe.Some? ==>
      && f.name == recipe.value.name
      && f.ingredients == recipe.value.ingredients
      && f.instructions == recipe.value.instructions
      && f.imageUrl == recipe.value.imageUrl.GetOr("")
      && f.category == recipe.value.category.GetOr("")
  {
    match recipe
    case None => BlankForm
    case Some(r) => FormData(r.name, r.ingredients, r.instructions, r.imageUrl.GetOr(""), r.category.GetOr(""))
  }

  /** `f.ingredients.filter((_, i) => i !== idx)`: exactly position `idx` goes; an index past the end removes nothing. */
  function RemovedAt(ingredients: seq<string>, idx: nat): (r: seq<string>)
    ensures idx < |ingredients| ==> |r| == |ingredients| - 1
    ensures idx < |ingredients| ==> forall k :: 0 <= k < idx ==> r[k] == ingredients[k]
    ensures idx < |ingredients| ==> forall k :: idx <= k < |r| ==> r[k] == ingredients[k + 1]
    ensures idx >= |ingredients| ==> r == ingredients
  {
    if idx < |ingredients| then ingredients[..idx] + ingredients[idx + 1..] else ingredients
  }

  /** Removing the ingredient just added restores the list. */
  lemma RemoveUndoesAdd(ingredients: seq<string>)
    ensures RemovedAt(ingredients + [""], |ingredients|) == ingredients
  {
  }

  /** `formData.ingredients.map((i) => i.trim()).filter(Boolean)` */
  function CleanedIngredients(ingredients: seq<string>): (r: seq<string>)
    ensures forall k :: 0 <= k < |r| ==> r[k] != "" && Trimmed(r[k])
    ensures r == [] <==> forall j :: 0 <= j < |ingredients| ==> AllSpace(ingredients[j])
  {
    TrimAndDropEmpty(ingredients)
  }

  /** The form can be submitted: a name, an ingredient and instructions that are not blank. */
  predicate Submittable(form: FormData) {
    !AllSpace(form.name) && CleanedIngredients(form.ingredients) != [] && !AllSpace(form.instructions)
  }

  /**
   * `errors` names exactly the fields that fail: a blank name, no non-blank ingredient,
   * blank instructions, each with its message; nothing else is reported.
   */
  predicate ReportsErrors(form: FormData, errors: map<string, string>) {
    && ("name" in errors) == AllSpace(form.name)
    && ("ingredients" in errors) == (CleanedIngredients(form.ingredients) == [])
    && ("instructions" in errors) == AllSpace(form.instructions)
    && ("name" in errors ==> errors["name"] == "Name is required")
    && ("ingredients" in errors ==> errors["ingredients"] == "At least one ingredient")
    && ("instructions" in errors ==> errors["instructions"] == "Instructions required")
    && errors.Keys <= {"name", "ingredients", "instructions"}
  }

  /** `validationErrors` of `handleSubmit`, one message per failing field. */
  method Validate(form: FormData) returns (errors: map<string, string>)
    ensures ReportsErrors(form, errors)
    ensures |errors| == 0 <==> Submittable(form)
  {
    errors := map[];
    if Trim(form.name) == "" {
      errors := errors["name" := "Name is required"];
    }
    var cleaned := CleanedIngredients(form.ingredients);
    if |cleaned| == 0 {
      errors := errors["ingredients" := "At least one ingredient"];
    }
    if Trim(form.instructions) == "" {
      errors := errors["instructions" := "Instructions required"];
    }
    assert |errors| == 0 <==> errors == map[];
  }

  /** `s.trim() || undefined` */
  function OptionalTrimmed(s: string): (r: Option<string>)
    ensures r.None? <==> AllSpace(s)
    ensures r.Some? ==> r.value == Trim(s) && r.value != "" && Trimmed(r.value)
  {
    var t := Trim(s);
    if t == "" then None else Some(t)
  }

  /** `base` of `handleSubmit`: the cleaned fields without an id. */
  datatype Base = Base(
    name: string,
    ingredients: seq<string>,
    instructions: string,
    imageUrl: Option<string>,
    category: Option<string>)

  /** The cleaned form: trimmed name and instructions, cleaned ingredients, blank optional fields absent. */
  function CleanedBase(form: FormData): (b: Base)
    ensures Trimmed(b.name) && (b.name == "" <==> AllSpace(form.name))
    ensures Trimmed(b.instructions) && (b.instructions == "" <==> AllSpace(form.instructions))
    ensures forall k :: 0 <= k < |b.ingredients| ==> b.ingredients[k] != "" && Trimmed(b.ingredients[k])
    ensures b.ingredients == [] <==> forall j :: 0 <= j < |form.ingredients| ==> AllSpace(form.ingredients[j])
    ensures b.imageUrl.None? <==> AllSpace(form.imageUrl)
    ensures b.category.None? <==> AllSpace(form.category)
  {
    Base(Trim(form.name), CleanedIngredients(form.ingredients), Trim(form.instructions),
         OptionalTrimmed(form.imageUrl), OptionalTrimmed(form.category))
  }

  /**
   * What a submittable form hands on: a non-empty trimmed name and instructions, at least
   * one ingredient and no empty or untrimmed one, and optional fields that are either
   * absent or non-empty and trimmed.
   */
  lemma SubmittedBaseIsClean(form: FormData)
    requires Submittable(form)
    ensures var b := CleanedBase(form);
      && b.name != "" && Trimmed(b.name)
      && b.instructions != "" && Trimmed(b.instructions)
      && b.ingredients != []
      && (forall k :: 0 <= k < |b.ingredients| ==> b.ingredients[k] != "" && Trimmed(b.ingredients[k]))
      && (b.imageUrl.Some? ==> b.imageUrl.value != "" && Trimmed(b.imageUrl.value))
      && (b.category.Some? ==> b.category.value != "" && Trimmed(b.category.value))
  {
  }

  /** What a submit does: keeps the drawer open with errors, calls `onUpdate`, or dispatches `addNewRecipe`. */
  datatype Submission =
    | Invalid(errors: map<string, string>)
    | UpdateCalled(edited: EditableRecipe)
    | AddDispatched(added: RecipesSlice.Recipe)

  /** `{ id, ...base }` as handed to `onUpdate`. */
  function WithId(id: string, b: Base): (e: EditableRecipe)
    ensures e.id == id
    ensures e.name == b.name && e.ingredients == b.ingredients && e.instructions == b.instructions
    ensures e.imageUrl == b.imageUrl && e.category == b.category
  {
    EditableRecipe(id, b.name, b.ingredients, b.instructions, b.imageUrl, b.category)
  }

  /** `{ id: crypto.randomUUID(), ...base }` as dispatched with `addNewRecipe`; it carries no `favorite`. */
  function NewRecipe(id: string, b: Base): (r: RecipesSlice.Recipe)
    ensures r.id == id && r.favorite.None?
    ensures r.name == b.name && r.ingredients == b.ingredients && r.instructions == b.instructions
    ensures r.imageUrl == b.imageUrl && r.category == b.category
  {
    RecipesSlice.Recipe(id, b.name, b.ingredients, b.instructions, b.imageUrl, b.category, None)
  }

  /** The decision of `handleSubmit`, before it touches the drawer's state. */
  method Submit(form: FormData, editMode: bool, recipe: Option<EditableRecipe>, hasOnUpdate: bool, freshId: string)
    returns (s: Submission)
    ensures s.Invalid? <==> !Submittable(form)
    ensures s.Invalid? ==> ReportsErrors(form, s.errors)
    ensures s.UpdateCalled? <==> Submittable(form) && editMode && recipe.Some? && hasOnUpdate
    ensures s.UpdateCalled? ==> s.edited == WithId(recipe.value.id, CleanedBase(form))
    ensures s.AddDispatched? ==> s.added == NewRecipe(freshId, CleanedBase(form))
  {
    var validationErrors := Validate(form);
    if |validationErrors| > 0 {
      s := Invalid(validationErrors);
    } else {
      var base := CleanedBase(form);
      if editMode && recipe.Some? && hasOnUpdate {
        s := UpdateCalled(WithId(recipe.value.id, base));
      } else {
        s := AddDispatched(NewRecipe(freshId, base));
      }
    }
  }

  /** The text inputs `handleChange` serves, by their `name` attribute. */
  datatype Field = NameField | InstructionsField | ImageUrlField | CategoryField

  function FieldKey(f: Field): string {
    match f
    case NameField => "name"
    case InstructionsField => "instructions"
    case ImageUrlField => "imageUrl"
    case CategoryField => "category"
  }

  /** The form with input `f` set to `value`. */
  function WithField(form: FormData, f: Field, value: string): (r: FormData)
    ensures r.ingredients == form.ingredients
  {
    match f
    case NameField => form.(name := value)
    case InstructionsField => form.(instructions := value)
    case ImageUrlField => form.(imageUrl := value)
    case CategoryField => form.(category := value)
  }

  /**
   * The drawer's local state. `open` is the parent's `drawerOpen` flag; `onClose`
   * clears it.
   */
  class DrawerForm {
    var formData: FormData
    var errors: map<string, string>
    var open: bool

    /** `useState` with the initial `recipe` prop and no errors. */
    constructor (recipe: Option<EditableRecipe>, isOpen: bool)
      ensures formData == Prefill(recipe) && errors == map[] && open == isOpen
    {
      formData := Prefill(recipe);
      errors := map[];
      open := isOpen;
    }

    /** The prefill effect: while the drawer is open, the form is refilled from `recipe` and the errors cleared. */
    method PrefillEffect(recipe: Option<EditableRecipe>)
      modifies this
      ensures open == old(open)
      ensures old(open) ==> formData == Prefill(recipe) && errors == map[]
      ensures !old(open) ==> formData == old(formData) && errors == old(errors)
    {
      if open {
        formData := Prefill(recipe);
        errors := map[];
      }
    }

    /** `handleChange`: the input's field takes the typed value and its error is blanked to `''`. */
    method HandleChange(f: Field, value: string)
      modifies this
      ensures formData == WithField(old(formData), f, value)
      ensures errors == old(errors)[FieldKey(f) := ""]
      ensures open == old(open)
    {
      formData := WithField(formData, f, value);
      errors := errors[FieldKey(f) := ""];
    }

    /** `handleIngredientChange(idx, value)`: the clone gets `value` at `idx`; nothing else changes. */
    method HandleIngredientChange(idx: nat, value: string)
      requires idx < |formData.ingredients|
      modifies this
      ensures formData == old(formData).(ingredients := formData.ingredients)
      ensures |formData.ingredients| == |old(formData.ingredients)|
      ensures formData.ingredients[idx] == value
      ensures forall k :: 0 <= k < |formData.ingredients| && k != idx ==> formData.ingredients[k] == old(formData.ingredients[k])
      ensures errors == old(errors) && open == old(open)
    {
      var clone := formData.ingredients;
      clone := clone[idx := value];
      formData := formData.(ingredients := clone);
    }

    /** `addIngredient`: one empty ingredient at the end. */
    method AddIngredient()
      modifies this
      ensures formData == old(formData).(ingredients := old(formData.ingredients) + [""])
      ensures errors == old(errors) && open == old(open)
    {
      formData := formData.(ingredients := formData.ingredients + [""]);
    }

    /** `removeIngredient(idx)` */
    method RemoveIngredient(idx: nat)
      modifies this
      ensures formData == old(formData).(ingredients := RemovedAt(old(formData.ingredients), idx))
      ensures errors == old(errors) && open == old(open)
    {
      formData := formData.(ingredients := RemovedAt(formData.ingredients, idx));
    }

    /**
     * `handleSubmit`. An unsubmittable form only records the errors. Otherwise exactly one
     * of `onUpdate` (edit mode with a recipe and a handler) and `addNewRecipe` (with the
     * fresh id) happens, the drawer closes and the form is blanked; the errors stay as they were.
     */
    method HandleSubmit(editMode: bool, recipe: Option<EditableRecipe>, hasOnUpdate: bool, freshId: string)
      returns (s: Submission)
      modifies this
      ensures s.Invalid? <==> !Submittable(old(formData))
      ensures s.Invalid? ==> ReportsErrors(old(formData), s.errors)
      ensures s.UpdateCalled? <==> Submittable(old(formData)) && editMode && recipe.Some? && hasOnUpdate
      ensures s.UpdateCalled? ==> s.edited == WithId(recipe.value.id, CleanedBase(old(formData)))
      ensures s.AddDispatched? ==> s.added == NewRecipe(freshId, CleanedBase(old(formData)))
      ensures s.Invalid? ==> errors == s.errors
      ensures s.Invalid? ==> formData == old(formData) && open == old(open)
      ensures !s.Invalid? ==> !open
      ensures !s.Invalid? ==> formData == BlankForm
      ensures !s.Invalid? ==> errors == old(errors)
    {
      var form := formData;
      s := Submit(form, editMode, recipe, hasOnUpdate, freshId);
      if s.Invalid? {
        errors := s.errors;
      } else {
        open := false;
        formData := BlankForm;
      }
    }
  }
}
