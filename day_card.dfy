/**
  The day card's pantry line: the ingredients the lunch and the dinner take
  from the pantry, merged without repeats, and whether the line is shown.
 */
module DayCard {
  import opened Wrappers
  import opened Text
  import opened Seqs
  import opened WeeklyPlan

  /** `day.lunch.ingredients_used_from_pantry || []`, and likewise for the dinner. */
  function LunchPantry(day: DayMenu): seq<string> {
    day.lunch.pantryUsed.GetOr([])
  }

  function DinnerPantry(day: DayMenu): seq<string> {
    day.dinner.pantryUsed.GetOr([])
  }

  /** `[...new Set([...lunchPantry, ...dinnerPantry])]`. */
  function ShownIngredients(day: DayMenu): seq<string> {
    Dedup(LunchPantry(day) + DinnerPantry(day))
  }

  /** The line is shown when either list is non-empty. */
  predicate ShowsLine(day: DayMenu) {
    |LunchPantry(day)| > 0 || |DinnerPantry(day)| > 0
  }

  /** The text of the line, when it is shown. */
  function PantryLine(day: DayMenu): (line: Option<string>)
    ensures line.Some? <==> ShowsLine(day)
  {
    if ShowsLine(day) then Some("Usa: " + Join(ShownIngredients(day), ", ")) else None
  }

  /** The shown list has every ingredient of either meal, once each, and nothing else. */
  lemma ShownIsUnion(day: DayMenu)
    ensures forall x :: x in ShownIngredients(day) <==> x in LunchPantry(day) || x in DinnerPantry(day)
    ensures NoDup(ShownIngredients(day))
  {
    DedupFacts(LunchPantry(day) + DinnerPantry(day));
  }

  /** First-occurrence order: the lunch's ingredients first, then the dinner's not already listed. */
  lemma LunchFirst(day: DayMenu)
    ensures ShownIngredients(day) == Dedup(LunchPantry(day)) + Filter(Dedup(DinnerPantry(day)), x => x !in LunchPantry(day))
  {
    DedupUnion(LunchPantry(day), DinnerPantry(day));
  }

  /** A meal without a pantry list counts as an empty one. */
  lemma MissingListIsEmpty(day: DayMenu)
    requires day.lunch.pantryUsed.None?
    ensures ShownIngredients(day) == Dedup(DinnerPantry(day))
  {
    assert LunchPantry(day) + DinnerPantry(day) == DinnerPantry(day);
  }

  /** The line is shown exactly when there is something to list. */
  lemma ShowsLineIff(day: DayMenu)
    ensures ShowsLine(day) <==> ShownIngredients(day) != []
  {
    var all := LunchPantry(day) + DinnerPantry(day);
    DedupFacts(all);
    if |all| > 0 {
      assert all[0] in all;
      assert all[0] in ShownIngredients(day);
    }
  }

  /** Meals decoded from the plan schema carry no pantry list, so their card never shows the line. */
  lemma ParsedDayShowsNoLine(day: DayMenu)
    requires day.lunch.pantryUsed.None? && day.dinner.pantryUsed.None?
    ensures !ShowsLine(day) && PantryLine(day) == None
  {
  }
}
