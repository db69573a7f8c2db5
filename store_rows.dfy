/**
  The database rows the components read: a row of the `recipes` table and a
  row of the `pantry_items` table. Columns that may be `null` or absent are
  `Option`s. A recipe row's `ingredients` column is free JSON; the recipe
  form stores a list of `{name}` objects there.
 */
module StoreRows {
  import opened Wrappers
  import opened JsonValues
  import opened WeeklyPlan

  datatype RecipeRow = RecipeRow(
    id: string,
    name: string,
    ingredients: Json,
    tags: Option<seq<string>>,
    mealRole: Option<MealRole>,
    nutritionalClasses: Option<seq<NutritionalClass>>)

  datatype PantryRow = PantryRow(
    id: string,
    name: string,
    quantity: Option<string>,
    category: Option<string>)
}
