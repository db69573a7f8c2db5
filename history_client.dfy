/**
  The history page's test that tells a plan of the current shape apart from
  one saved by an earlier version of the planner.
 */
module HistoryClient {
  import opened Wrappers
  import opened JsonValues
  import opened WeeklyPlan

  /** `plan.menu_data` of a database row. */
  function MenuData(plan: map<string, Json>): Option<Json> {
    if "menu_data" in plan then Some(plan["menu_data"]) else None
  }

  /** `isV2Plan`, read as written: JavaScript truthiness, `typeof` and `Array.isArray` tests. */
  predicate IsV2Plan(plan: map<string, Json>) {
    var md := MenuData(plan);
    if !Truthy(md) || !IsArray(md) || |md.value.items| == 0 then false
    else
      var firstDay := Some(md.value.items[0]);
      var lunch := Member(firstDay, "lunch");
      Truthy(firstDay) && TypeofObject(firstDay) && Truthy(lunch) && TypeofObject(lunch)
      && IsArray(Member(lunch, "recipes"))
  }

  /** A row without days, or whose days are not a list, is not of the current shape. */
  lemma NoDaysNotV2(plan: map<string, Json>)
    requires "menu_data" !in plan || !plan["menu_data"].JArr? || plan["menu_data"].items == []
    ensures !IsV2Plan(plan)
  {
  }

  /** The shape test in plain terms: the first day is an object whose `lunch` is an object holding a `recipes` list. */
  lemma V2Iff(plan: map<string, Json>)
    requires "menu_data" in plan && plan["menu_data"].JArr? && plan["menu_data"].items != []
    ensures var first := plan["menu_data"].items[0];
      IsV2Plan(plan) <==>
        first.JObj? && "lunch" in first.fields && first.fields["lunch"].JObj?
        && "recipes" in first.fields["lunch"].fields && first.fields["lunch"].fields["recipes"].JArr?
  {
  }

  /** Only the first day is looked at: the later days never change the verdict. */
  lemma OnlyFirstDayMatters(plan: map<string, Json>, first: Json, rest1: seq<Json>, rest2: seq<Json>)
    ensures IsV2Plan(plan["menu_data" := JArr([first] + rest1)]) == IsV2Plan(plan["menu_data" := JArr([first] + rest2)])
  {
  }

  /** The first day's dinner never changes the verdict. */
  lemma DinnerIgnored(plan: map<string, Json>, fields: map<string, Json>, dinner: Json, rest: seq<Json>)
    ensures IsV2Plan(plan["menu_data" := JArr([JObj(fields)] + rest)])
      == IsV2Plan(plan["menu_data" := JArr([JObj(fields["dinner" := dinner])] + rest)])
  {
    var a, b := plan["menu_data" := JArr([JObj(fields)] + rest)], plan["menu_data" := JArr([JObj(fields["dinner" := dinner])] + rest)];
    assert MenuData(a).value.items[0] == JObj(fields);
    assert MenuData(b).value.items[0] == JObj(fields["dinner" := dinner]);
  }

  /** Earlier shapes, where the lunch is a plain text or has no `recipes` list, are flagged as old. */
  lemma LegacyShapesNotV2(plan: map<string, Json>, fields: map<string, Json>, lunch: Json, rest: seq<Json>)
    requires lunch.JStr? || (lunch.JObj? && ("recipes" !in lunch.fields || !lunch.fields["recipes"].JArr?))
    ensures !IsV2Plan(plan["menu_data" := JArr([JObj(fields["lunch" := lunch])] + rest)])
  {
    var p := plan["menu_data" := JArr([JObj(fields["lunch" := lunch])] + rest)];
    assert MenuData(p).value.items[0] == JObj(fields["lunch" := lunch]);
  }

  lemma EncodedMealHasRecipes(m: MealPlan)
    ensures EncodeMeal(m).JObj? && "recipes" in EncodeMeal(m).fields && EncodeMeal(m).fields["recipes"].JArr?
  {
  }

  /** A plan the planner stores today, with at least one day, is recognised as current. */
  lemma StoredPlansAreV2(plan: map<string, Json>, days: seq<DayMenu>)
    requires days != []
    ensures IsV2Plan(plan["menu_data" := EncodeDays(days)])
  {
    var p := plan["menu_data" := EncodeDays(days)];
    EncodeDayFields(days[0]);
    EncodedMealHasRecipes(days[0].lunch);
    assert MenuData(p).value.items[0] == EncodeDay(days[0]);
  }
}
