/**
  The recipe picker: the loaded recipes of the requested role whose name
  matches the search, and the plan item built from the recipe clicked.
 */
module RecipePickerDialog {
  import opened Wrappers
  import opened Text
  import opened Seqs
  import opened WeeklyPlan
  import opened StoreRows
  import DashboardClient

  /** `r.name.toLowerCase().includes(search.toLowerCase()) && r.meal_role === mealRole`. */
  predicate Listed(r: RecipeRow, search: string, role: MealRole) {
    DashboardClient.NameMatches(r.name, search) && r.mealRole == Some(role)
  }

  function PickerFilter(search: string, role: MealRole): RecipeRow -> bool {
    (r: RecipeRow) => Listed(r, search, role)
  }

  /** `filteredRecipes` of the dialog. */
  function PickerList(recipes: seq<RecipeRow>, search: string, role: MealRole): (r: seq<RecipeRow>)
    ensures forall x :: x in r <==> x in recipes && DashboardClient.NameMatches(x.name, search) && x.mealRole == Some(role)
    ensures IsSubseq(r, recipes)
  {
    FilterIsSubseq(recipes, PickerFilter(search, role));
    Filter(recipes, PickerFilter(search, role))
  }

  /** Every listed recipe has the requested role. */
  lemma ListedHaveRole(recipes: seq<RecipeRow>, search: string, role: MealRole)
    ensures forall i :: 0 <= i < |PickerList(recipes, search, role)| ==> PickerList(recipes, search, role)[i].mealRole == Some(role)
  {
    var l := PickerList(recipes, search, role);
    forall i | 0 <= i < |l| ensures l[i].mealRole == Some(role) {
      assert l[i] in l;
    }
  }

  function RoleFilter(role: MealRole): RecipeRow -> bool {
    (r: RecipeRow) => r.mealRole == Some(role)
  }

  /** With an empty search the dialog lists exactly the recipes of the role, in order. */
  lemma EmptySearchListsRole(recipes: seq<RecipeRow>, role: MealRole)
    ensures PickerList(recipes, "", role) == Filter(recipes, RoleFilter(role))
  {
    forall x ensures PickerFilter("", role)(x) == RoleFilter(role)(x) {
      ContainsEmpty(ToLower(x.name));
    }
    FilterSameCondition(recipes, PickerFilter("", role), RoleFilter(role));
  }

  /** The lists for the two roles never share a recipe. */
  lemma RolesDisjoint(recipes: seq<RecipeRow>, search: string, x: RecipeRow)
    ensures !(x in PickerList(recipes, search, Main) && x in PickerList(recipes, search, Side))
  {
  }

  /**
    `onSelect`'s item for a clicked recipe: its id, name, role and classes, with
    source `user` and no AI data. Only a listed recipe can be clicked, so its
    role is the dialog's role.
   */
  function SelectRecipe(recipe: RecipeRow, role: MealRole): (item: MealRecipeItem)
    requires recipe.mealRole == Some(role)
    ensures item.recipeId == recipe.id && item.name == recipe.name
    ensures Some(item.mealRole) == recipe.mealRole
    ensures recipe.nutritionalClasses.Some? ==> item.nutritionalClasses == recipe.nutritionalClasses.value
    ensures item.source == User && item.aiCreationData.None?
  {
    MealRecipeItem(recipe.id, recipe.name, role, recipe.nutritionalClasses.GetOr([]), User, None)
  }

  /** A recipe with at least one class yields a valid plan item, which is what the stored recipes hold. */
  lemma SelectedIsValid(recipe: RecipeRow, role: MealRole)
    requires recipe.mealRole == Some(role)
    requires recipe.nutritionalClasses.Some? && |recipe.nutritionalClasses.value| >= 1
    ensures ValidItem(SelectRecipe(recipe, role))
  {
  }

  /** Picking any listed recipe is allowed and copies it into the role's slot. */
  lemma PickFromList(recipes: seq<RecipeRow>, search: string, role: MealRole, k: int)
    requires 0 <= k < |PickerList(recipes, search, role)|
    ensures PickerList(recipes, search, role)[k].mealRole == Some(role)
    ensures SelectRecipe(PickerList(recipes, search, role)[k], role).mealRole == role
  {
    ListedHaveRole(recipes, search, role);
  }
}
