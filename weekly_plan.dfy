/**
  The weekly-plan data model: the enumerations, the five record schemas with
  their refinements, and the schema parser that turns a JSON value into a
  plan. The parser behaves as a zod object schema does: it reads the declared
  keys, rejects a value of the wrong shape and drops every key it does not
  declare.
 */
module WeeklyPlan {
  import opened Wrappers
  import opened JsonValues

  datatype NutritionalClass = Veg | Carbs | Protein
  datatype MealRole = Main | Side
  datatype RecipeSource = User | Ai
  datatype Weekday = Lunedi | Martedi | Mercoledi | Giovedi | Venerdi | Sabato | Domenica

  /** The canonical order of the classes. */
  const AllClasses: seq<NutritionalClass> := [Veg, Carbs, Protein]

  function ClassName(c: NutritionalClass): string {
    match c
    case Veg => "veg"
    case Carbs => "carbs"
    case Protein => "protein"
  }

  function RoleName(r: MealRole): string {
    match r
    case Main => "main"
    case Side => "side"
  }

  function SourceName(s: RecipeSource): string {
    match s
    case User => "user"
    case Ai => "ai"
  }

  /** The seven Italian weekday labels, accents included. */
  function DayName(d: Weekday): string {
    match d
    case Lunedi => "Luned\U{EC}"
    case Martedi => "Marted\U{EC}"
    case Mercoledi => "Mercoled\U{EC}"
    case Giovedi => "Gioved\U{EC}"
    case Venerdi => "Venerd\U{EC}"
    case Sabato => "Sabato"
    case Domenica => "Domenica"
  }

  /** The class names of a list of classes. */
  function ClassNames(cs: seq<NutritionalClass>): (r: seq<string>)
    ensures |r| == |cs| && forall i :: 0 <= i < |cs| ==> r[i] == ClassName(cs[i])
  {
    seq(|cs|, i requires 0 <= i < |cs| => ClassName(cs[i]))
  }

  /** `NutritionalClassEnum`: accepts exactly the three class names. */
  function ParseClass(s: string): (r: Option<NutritionalClass>)
    ensures r.Some? <==> s == "veg" || s == "carbs" || s == "protein"
    ensures r.Some? ==> ClassName(r.value) == s
  {
    if s == "veg" then Some(Veg)
    else if s == "carbs" then Some(Carbs)
    else if s == "protein" then Some(Protein)
    else None
  }

  /** `MealRoleEnum`: accepts exactly "main" and "side". */
  function ParseRole(s: string): (r: Option<MealRole>)
    ensures r.Some? <==> s == "main" || s == "side"
    ensures r.Some? ==> RoleName(r.value) == s
  {
    if s == "main" then Some(Main) else if s == "side" then Some(Side) else None
  }

  /** `RecipeSourceEnum`: accepts exactly "user" and "ai". */
  function ParseSource(s: string): (r: Option<RecipeSource>)
    ensures r.Some? <==> s == "user" || s == "ai"
    ensures r.Some? ==> SourceName(r.value) == s
  {
    if s == "user" then Some(User) else if s == "ai" then Some(Ai) else None
  }

  /** The `day` enumeration: accepts exactly the seven weekday labels. */
  function ParseDay(s: string): (r: Option<Weekday>)
    ensures r.Some? ==> DayName(r.value) == s
    ensures forall d: Weekday :: DayName(d) == s ==> r == Some(d)
  {
    if s == "Luned\U{EC}" then Some(Lunedi)
    else if s == "Marted\U{EC}" then Some(Martedi)
    else if s == "Mercoled\U{EC}" then Some(Mercoledi)
    else if s == "Gioved\U{EC}" then Some(Giovedi)
    else if s == "Venerd\U{EC}" then Some(Venerdi)
    else if s == "Sabato" then Some(Sabato)
    else if s == "Domenica" then Some(Domenica)
    else None
  }

  /** Every enumeration value is accepted back from its name. */
  lemma EnumNamesRoundTrip(c: NutritionalClass, r: MealRole, s: RecipeSource, d: Weekday)
    ensures ParseClass(ClassName(c)) == Some(c)
    ensures ParseRole(RoleName(r)) == Some(r)
    ensures ParseSource(SourceName(s)) == Some(s)
    ensures ParseDay(DayName(d)) == Some(d)
  {
  }

  datatype AiCreationData = AiCreationData(ingredients: seq<string>, tags: seq<string>)

  datatype MealRecipeItem = MealRecipeItem(
    recipeId: string,
    name: string,
    mealRole: MealRole,
    nutritionalClasses: seq<NutritionalClass>,
    source: RecipeSource,
    aiCreationData: Option<AiCreationData>)

  /**
    A meal. `pantryUsed` is the `ingredients_used_from_pantry` key that the day
    card and the Markdown export read from a meal; the meal schema does not
    declare it, so a parsed meal never has it.
   */
  datatype MealPlan = MealPlan(
    recipes: seq<MealRecipeItem>,
    notes: Option<string>,
    pantryUsed: Option<seq<string>>)

  datatype ShoppingItem = ShoppingItem(item: string, quantity: string, recipeIds: seq<string>)

  datatype DayMenu = DayMenu(
    day: Weekday,
    lunch: MealPlan,
    dinner: MealPlan,
    ingredientsUsedFromPantry: seq<string>)

  datatype WeeklyPlan = WeeklyPlan(
    weeklyMenu: seq<DayMenu>,
    shoppingList: seq<ShoppingItem>,
    summaryNote: string)

  // ---------------------------------------------------------------------------
  // The refinements of the schemas
  // ---------------------------------------------------------------------------

  /** `nutritional_classes` has `min(1)`. */
  predicate ValidItem(x: MealRecipeItem) {
    |x.nutritionalClasses| >= 1
  }

  /** A meal may have no recipes at all; each recipe it has must be valid. */
  predicate ValidMeal(m: MealPlan) {
    forall i :: 0 <= i < |m.recipes| ==> ValidItem(m.recipes[i])
  }

  /** `recipe_ids` has `min(1)`. */
  predicate ValidShopping(s: ShoppingItem) {
    |s.recipeIds| >= 1
  }

  predicate ValidDay(d: DayMenu) {
    ValidMeal(d.lunch) && ValidMeal(d.dinner)
  }

  /** No bound on the number of days and no order among them. */
  predicate ValidPlan(p: WeeklyPlan) {
    && (forall i :: 0 <= i < |p.weeklyMenu| ==> ValidDay(p.weeklyMenu[i]))
    && (forall i :: 0 <= i < |p.shoppingList| ==> ValidShopping(p.shoppingList[i]))
  }

  /** What the meal schema leaves of a meal: the undeclared pantry key is dropped. */
  function StripMeal(m: MealPlan): MealPlan {
    m.(pantryUsed := None)
  }

  function StripDay(d: DayMenu): DayMenu {
    d.(lunch := StripMeal(d.lunch), dinner := StripMeal(d.dinner))
  }

  function StripDays(ds: seq<DayMenu>): (r: seq<DayMenu>)
    ensures |r| == |ds| && forall i :: 0 <= i < |ds| ==> r[i] == StripDay(ds[i])
  {
    seq(|ds|, i requires 0 <= i < |ds| => StripDay(ds[i]))
  }

  function StripPlan(p: WeeklyPlan): (r: WeeklyPlan)
    ensures |r.weeklyMenu| == |p.weeklyMenu|
  {
    p.(weeklyMenu := StripDays(p.weeklyMenu))
  }

  // ---------------------------------------------------------------------------
  // The schema parser
  // ---------------------------------------------------------------------------

  /** Parses every element with `p`; fails as soon as one element fails. */
  function ParseAll<T>(items: seq<Json>, p: Json -> Option<T>): (r: Option<seq<T>>)
    ensures r.Some? <==> forall i :: 0 <= i < |items| ==> p(items[i]).Some?
    ensures r.Some? ==> |r.value| == |items| && forall i :: 0 <= i < |items| ==> p(items[i]) == Some(r.value[i])
  {
    if items == [] then Some([])
    else
      match p(items[0])
      case None => None
      case Some(x) =>
        match ParseAll(items[1..], p)
        case None => None
        case Some(xs) => Some([x] + xs)
  }

  /** `z.string()`. */
  function ParseString(v: Option<Json>): (r: Option<string>)
    ensures r.Some? <==> v.Some? && v.value.JStr?
  {
    if v.Some? && v.value.JStr? then Some(v.value.s) else None
  }

  function StringOf(v: Json): Option<string> {
    ParseString(Some(v))
  }

  /** `z.array(z.string())`. */
  function ParseStrings(v: Option<Json>): (r: Option<seq<string>>)
    ensures r.Some? ==> v.Some? && v.value.JArr? && |r.value| == |v.value.items|
  {
    if v.Some? && v.value.JArr? then ParseAll(v.value.items, StringOf) else None
  }

  function ClassOf(v: Json): Option<NutritionalClass> {
    if v.JStr? then ParseClass(v.s) else None
  }

  /** `z.array(NutritionalClassEnum).min(1)`. */
  function ParseClasses(v: Option<Json>): (r: Option<seq<NutritionalClass>>)
    ensures r.Some? ==> |r.value| >= 1
  {
    if v.Some? && v.value.JArr? && |v.value.items| >= 1 then ParseAll(v.value.items, ClassOf) else None
  }

  function Field(f: map<string, Json>, key: string): Option<Json> {
    if key in f then Some(f[key]) else None
  }

  /** The optional `ai_creation_data`: absent is fine, present must be an object of two string lists. */
  function ParseAiData(v: Option<Json>): (r: Option<Option<AiCreationData>>)
    ensures v.None? ==> r == Some(None)
  {
    match v
    case None => Some(None)
    case Some(JObj(f)) =>
      (match (ParseStrings(Field(f, "ingredients")), ParseStrings(Field(f, "tags")))
       case (Some(ing), Some(tags)) => Some(Some(AiCreationData(ing, tags)))
       case _ => None)
    case Some(_) => None
  }

  /** `MealRecipeItemSchema.parse`. */
  function ParseItem(v: Json): (r: Option<MealRecipeItem>)
    ensures r.Some? ==> ValidItem(r.value)
  {
    if !v.JObj? then None else
    var f := v.fields;
    var id := ParseString(Field(f, "recipe_id"));
    var name := ParseString(Field(f, "name"));
    var role := if Field(f, "meal_role").Some? && f["meal_role"].JStr? then ParseRole(f["meal_role"].s) else None;
    var classes := ParseClasses(Field(f, "nutritional_classes"));
    var source := if Field(f, "source").Some? && f["source"].JStr? then ParseSource(f["source"].s) else None;
    var ai := ParseAiData(Field(f, "ai_creation_data"));
    if id.Some? && name.Some? && role.Some? && classes.Some? && source.Some? && ai.Some? then
      Some(MealRecipeItem(id.value, name.value, role.value, classes.value, source.value, ai.value))
    else None
  }

  /** `MealPlanSchema.parse`: the recipe list may be empty and `notes` may be absent. */
  function ParseMeal(v: Option<Json>): (r: Option<MealPlan>)
    ensures r.Some? ==> ValidMeal(r.value) && r.value.pantryUsed.None?
  {
    if !(v.Some? && v.value.JObj?) then None else
    var f := v.value.fields;
    var recipes := if Field(f, "recipes").Some? && f["recipes"].JArr? then ParseAll(f["recipes"].items, ParseItem) else None;
    var notes := if "notes" in f then (if f["notes"].JStr? then Some(Some(f["notes"].s)) else None) else Some(None);
    if recipes.Some? && notes.Some? then Some(MealPlan(recipes.value, notes.value, None)) else None
  }

  /** `ShoppingItemSchema.parse`. */
  function ParseShopping(v: Json): (r: Option<ShoppingItem>)
    ensures r.Some? ==> ValidShopping(r.value)
  {
    if !v.JObj? then None else
    var f := v.fields;
    var item := ParseString(Field(f, "item"));
    var quantity := ParseString(Field(f, "quantity"));
    var ids := ParseStrings(Field(f, "recipe_ids"));
    if item.Some? && quantity.Some? && ids.Some? && |ids.value| >= 1 then
      Some(ShoppingItem(item.value, quantity.value, ids.value))
    else None
  }

  /** `DayMenuSchema.parse`. */
  function ParseDayMenu(v: Json): (r: Option<DayMenu>)
    ensures r.Some? ==> ValidDay(r.value)
  {
    if !v.JObj? then None else
    var f := v.fields;
    var day := if Field(f, "day").Some? && f["day"].JStr? then ParseDay(f["day"].s) else None;
    var lunch := ParseMeal(Field(f, "lunch"));
    var dinner := ParseMeal(Field(f, "dinner"));
    var pantry := ParseStrings(Field(f, "ingredients_used_from_pantry"));
    if day.Some? && lunch.Some? && dinner.Some? && pantry.Some? then
      Some(DayMenu(day.value, lunch.value, dinner.value, pantry.value))
    else None
  }

  /** `WeeklyPlanSchema.parse`: any number of days, in any order. */
  function ParsePlan(v: Json): (r: Option<WeeklyPlan>)
    ensures r.Some? ==> ValidPlan(r.value)
  {
    if !v.JObj? then None else
    var f := v.fields;
    var days := if Field(f, "weekly_menu").Some? && f["weekly_menu"].JArr? then ParseAll(f["weekly_menu"].items, ParseDayMenu) else None;
    var shopping := if Field(f, "shopping_list").Some? && f["shopping_list"].JArr? then ParseAll(f["shopping_list"].items, ParseShopping) else None;
    var note := ParseString(Field(f, "summary_note"));
    if days.Some? && shopping.Some? && note.Some? then Some(WeeklyPlan(days.value, shopping.value, note.value)) else None
  }

  // ---------------------------------------------------------------------------
  // The JSON form of a plan
  // ---------------------------------------------------------------------------

  function EncodeStrings(xs: seq<string>): Json {
    JArr(seq(|xs|, i requires 0 <= i < |xs| => JStr(xs[i])))
  }

  function EncodeClasses(cs: seq<NutritionalClass>): Json {
    JArr(seq(|cs|, i requires 0 <= i < |cs| => JStr(ClassName(cs[i]))))
  }

  function EncodeItem(x: MealRecipeItem): Json {
    var fixed := map[
      "recipe_id" := JStr(x.recipeId),
      "name" := JStr(x.name),
      "meal_role" := JStr(RoleName(x.mealRole)),
      "nutritional_classes" := EncodeClasses(x.nutritionalClasses),
      "source" := JStr(SourceName(x.source))];
    match x.aiCreationData
    case None => JObj(fixed)
    case Some(ai) => JObj(fixed["ai_creation_data" := EncodeAiData(ai)])
  }

  function EncodeAiData(ai: AiCreationData): Json {
    JObj(map["ingredients" := EncodeStrings(ai.ingredients), "tags" := EncodeStrings(ai.tags)])
  }

  function EncodeItems(rs: seq<MealRecipeItem>): Json {
    JArr(seq(|rs|, i requires 0 <= i < |rs| => EncodeItem(rs[i])))
  }

  /** A meal's JSON form, with the undeclared pantry key when the meal has one. */
  function EncodeMeal(m: MealPlan): Json {
    var base := map["recipes" := EncodeItems(m.recipes)];
    var withNotes := if m.notes.Some? then base["notes" := JStr(m.notes.value)] else base;
    if m.pantryUsed.Some? then JObj(withNotes["ingredients_used_from_pantry" := EncodeStrings(m.pantryUsed.value)])
    else JObj(withNotes)
  }

  function EncodeShopping(s: ShoppingItem): Json {
    JObj(map["item" := JStr(s.item), "quantity" := JStr(s.quantity), "recipe_ids" := EncodeStrings(s.recipeIds)])
  }

  function EncodeDay(d: DayMenu): Json {
    JObj(map[
      "day" := JStr(DayName(d.day)),
      "lunch" := EncodeMeal(d.lunch),
      "dinner" := EncodeMeal(d.dinner),
      "ingredients_used_from_pantry" := EncodeStrings(d.ingredientsUsedFromPantry)])
  }

  function EncodeDays(ds: seq<DayMenu>): Json {
    JArr(seq(|ds|, i requires 0 <= i < |ds| => EncodeDay(ds[i])))
  }

  function EncodeShoppingList(ss: seq<ShoppingItem>): Json {
    JArr(seq(|ss|, i requires 0 <= i < |ss| => EncodeShopping(ss[i])))
  }

  function EncodePlan(p: WeeklyPlan): Json {
    JObj(map[
      "weekly_menu" := EncodeDays(p.weeklyMenu),
      "shopping_list" := EncodeShoppingList(p.shoppingList),
      "summary_note" := JStr(p.summaryNote)])
  }

  // ---------------------------------------------------------------------------
  // Round trips
  // ---------------------------------------------------------------------------

  /** A list parses to `vals` when each element parses to the value at its position. */
  lemma {:induction false} ParseAllOf<T>(items: seq<Json>, p: Json -> Option<T>, vals: seq<T>)
    requires |items| == |vals|
    requires forall i :: 0 <= i < |items| ==> p(items[i]) == Some(vals[i])
    ensures ParseAll(items, p) == Some(vals)
  {
    if items != [] {
      ParseAllOf(items[1..], p, vals[1..]);
      assert vals == [vals[0]] + vals[1..];
    }
  }

  lemma StringsRoundTrip(xs: seq<string>)
    ensures ParseStrings(Some(EncodeStrings(xs))) == Some(xs)
  {
    ParseAllOf(EncodeStrings(xs).items, StringOf, xs);
  }

  /** The keys of an item's JSON form and what each holds. */
  lemma EncodeItemFields(x: MealRecipeItem)
    ensures EncodeItem(x).JObj?
    ensures var f := EncodeItem(x).fields;
      && Field(f, "recipe_id") == Some(JStr(x.recipeId))
      && Field(f, "name") == Some(JStr(x.name))
      && Field(f, "meal_role") == Some(JStr(RoleName(x.mealRole)))
      && Field(f, "nutritional_classes") == Some(EncodeClasses(x.nutritionalClasses))
      && Field(f, "source") == Some(JStr(SourceName(x.source)))
      && Field(f, "ai_creation_data") == (match x.aiCreationData
           case None => None
           case Some(ai) => Some(EncodeAiData(ai)))
  {
  }

  lemma AiDataRoundTrip(ai: AiCreationData)
    ensures ParseAiData(Some(EncodeAiData(ai))) == Some(Some(ai))
  {
    var f := EncodeAiData(ai).fields;
    assert Field(f, "ingredients") == Some(EncodeStrings(ai.ingredients));
    assert Field(f, "tags") == Some(EncodeStrings(ai.tags));
    StringsRoundTrip(ai.ingredients);
    StringsRoundTrip(ai.tags);
  }

  lemma ClassesRoundTrip(cs: seq<NutritionalClass>)
    requires |cs| >= 1
    ensures ParseClasses(Some(EncodeClasses(cs))) == Some(cs)
  {
    var items := EncodeClasses(cs).items;
    forall i | 0 <= i < |items| ensures ClassOf(items[i]) == Some(cs[i]) {
      EnumNamesRoundTrip(cs[i], Main, User, Lunedi);
    }
    ParseAllOf(items, ClassOf, cs);
  }

  lemma ItemRoundTrip(x: MealRecipeItem)
    requires ValidItem(x)
    ensures ParseItem(EncodeItem(x)) == Some(x)
  {
    EncodeItemFields(x);
    EnumNamesRoundTrip(Veg, x.mealRole, x.source, Lunedi);
    ClassesRoundTrip(x.nutritionalClasses);
    if x.aiCreationData.Some? {
      AiDataRoundTrip(x.aiCreationData.value);
    }
  }

  /** The meal schema gives back a valid meal without its undeclared pantry key. */
  lemma MealRoundTrip(m: MealPlan)
    requires ValidMeal(m)
    ensures ParseMeal(Some(EncodeMeal(m))) == Some(StripMeal(m))
  {
    var items := EncodeItems(m.recipes).items;
    forall i | 0 <= i < |items| ensures ParseItem(items[i]) == Some(m.recipes[i]) {
      ItemRoundTrip(m.recipes[i]);
    }
    ParseAllOf(items, ParseItem, m.recipes);
    var f := EncodeMeal(m).fields;
    assert Field(f, "recipes") == Some(JArr(items));
    assert "notes" in f <==> m.notes.Some?;
    assert m.notes.Some? ==> f["notes"] == JStr(m.notes.value);
  }

  lemma ShoppingRoundTrip(s: ShoppingItem)
    requires ValidShopping(s)
    ensures ParseShopping(EncodeShopping(s)) == Some(s)
  {
    StringsRoundTrip(s.recipeIds);
  }

  lemma EncodeDayFields(d: DayMenu)
    ensures EncodeDay(d).JObj?
    ensures var f := EncodeDay(d).fields;
      && Field(f, "day") == Some(JStr(DayName(d.day)))
      && Field(f, "lunch") == Some(EncodeMeal(d.lunch))
      && Field(f, "dinner") == Some(EncodeMeal(d.dinner))
      && Field(f, "ingredients_used_from_pantry") == Some(EncodeStrings(d.ingredientsUsedFromPantry))
  {
  }

  lemma DayRoundTrip(d: DayMenu)
    requires ValidDay(d)
    ensures ParseDayMenu(EncodeDay(d)) == Some(StripDay(d))
  {
    EncodeDayFields(d);
    EnumNamesRoundTrip(Veg, Main, User, d.day);
    MealRoundTrip(d.lunch);
    MealRoundTrip(d.dinner);
    StringsRoundTrip(d.ingredientsUsedFromPantry);
  }

  /**
    Parsing the JSON form of a valid plan gives the plan back, except that the
    undeclared pantry keys of its meals are gone.
   */
  lemma PlanRoundTrip(p: WeeklyPlan)
    requires ValidPlan(p)
    ensures ParsePlan(EncodePlan(p)) == Some(StripPlan(p))
  {
    DaysRoundTrip(p.weeklyMenu);
    ShoppingListRoundTrip(p.shoppingList);
    EncodePlanFields(p);
    ParsePlanOf(EncodePlan(p).fields, StripDays(p.weeklyMenu), p.shoppingList, p.summaryNote);
  }

  /** An object whose three members parse gives the plan of the parsed members. */
  lemma ParsePlanOf(f: map<string, Json>, ds: seq<DayMenu>, ss: seq<ShoppingItem>, note: string)
    requires "weekly_menu" in f && f["weekly_menu"].JArr? && ParseAll(f["weekly_menu"].items, ParseDayMenu) == Some(ds)
    requires "shopping_list" in f && f["shopping_list"].JArr? && ParseAll(f["shopping_list"].items, ParseShopping) == Some(ss)
    requires Field(f, "summary_note") == Some(JStr(note))
    ensures ParsePlan(JObj(f)) == Some(WeeklyPlan(ds, ss, note))
  {
  }

  lemma DaysRoundTrip(ds: seq<DayMenu>)
    requires forall i :: 0 <= i < |ds| ==> ValidDay(ds[i])
    ensures ParseAll(EncodeDays(ds).items, ParseDayMenu) == Some(StripDays(ds))
  {
    var days := EncodeDays(ds).items;
    var stripped := StripDays(ds);
    forall i | 0 <= i < |days| ensures ParseDayMenu(days[i]) == Some(stripped[i]) {
      DayRoundTrip(ds[i]);
    }
    ParseAllOf(days, ParseDayMenu, stripped);
  }

  lemma ShoppingListRoundTrip(ss: seq<ShoppingItem>)
    requires forall i :: 0 <= i < |ss| ==> ValidShopping(ss[i])
    ensures ParseAll(EncodeShoppingList(ss).items, ParseShopping) == Some(ss)
  {
    var shops := EncodeShoppingList(ss).items;
    forall i | 0 <= i < |shops| ensures ParseShopping(shops[i]) == Some(ss[i]) {
      ShoppingRoundTrip(ss[i]);
    }
    ParseAllOf(shops, ParseShopping, ss);
  }

  lemma EncodePlanFields(p: WeeklyPlan)
    ensures EncodePlan(p).JObj?
    ensures var f := EncodePlan(p).fields;
      && Field(f, "weekly_menu") == Some(EncodeDays(p.weeklyMenu))
      && Field(f, "shopping_list") == Some(EncodeShoppingList(p.shoppingList))
      && Field(f, "summary_note") == Some(JStr(p.summaryNote))
  {
  }

  /** A parsed plan never carries a meal-level pantry list. */
  lemma ParsedMealsHaveNoPantryList(v: Json)
    requires ParsePlan(v).Some?
    ensures forall i :: 0 <= i < |ParsePlan(v).value.weeklyMenu| ==>
      ParsePlan(v).value.weeklyMenu[i].lunch.pantryUsed.None? && ParsePlan(v).value.weeklyMenu[i].dinner.pantryUsed.None?
  {
  }

  /** A recipe item whose class list is empty is rejected, whatever its other fields. */
  lemma EmptyClassesRejected(f: map<string, Json>)
    requires "nutritional_classes" in f && f["nutritional_classes"] == JArr([])
    ensures ParseItem(JObj(f)) == None
  {
  }

  /** A shopping item that no recipe needs is rejected. */
  lemma EmptyRecipeIdsRejected(f: map<string, Json>)
    requires "recipe_ids" in f && f["recipe_ids"] == JArr([])
    ensures ParseShopping(JObj(f)) == None
  {
  }

  /** A day whose label is not one of the seven weekdays is rejected. */
  lemma UnknownDayRejected(f: map<string, Json>, dayLabel: string)
    requires "day" in f && f["day"] == JStr(dayLabel)
    requires forall d: Weekday :: DayName(d) != dayLabel
    ensures ParseDayMenu(JObj(f)) == None
  {
  }

  /** An item without `ai_creation_data` is accepted; one with a malformed value is not. */
  lemma AiDataOptional(x: MealRecipeItem, bad: Json)
    requires ValidItem(x) && x.aiCreationData.None?
    requires !bad.JObj?
    ensures ParseItem(EncodeItem(x)) == Some(x)
    ensures EncodeItem(x).JObj? && ParseItem(JObj(EncodeItem(x).fields["ai_creation_data" := bad])) == None
  {
    ItemRoundTrip(x);
  }
}
