/**
  The meal editor: the eating-out toggle and the removal of one recipe from a
  copy of the meal's list with `splice(index, 1)`.
 */
module MealEditor {
  import opened Wrappers
  import opened WeeklyPlan

  const EatingOutNote: string := "Pasto fuori casa"

  /** A meal is shown as eaten out exactly when it has no recipes. */
  predicate IsEatingOut(meal: MealPlan) {
    |meal.recipes| == 0
  }

  /**
    The toggle always clears the recipes; it writes the eating-out note when
    the meal had recipes and an empty note when it had none.
   */
  function ToggleEatingOut(meal: MealPlan): (r: MealPlan)
    ensures r.recipes == [] && r.pantryUsed == meal.pantryUsed
    ensures r.notes == Some(if IsEatingOut(meal) then "" else EatingOutNote)
  {
    if IsEatingOut(meal) then meal.(recipes := [], notes := Some(""))
    else meal.(recipes := [], notes := Some(EatingOutNote))
  }

  /**
    Toggling never leaves the eating-out state: a meal with no recipes stays
    without recipes, so a second toggle only clears the note.
   */
  lemma ToggleStaysEatingOut(meal: MealPlan)
    ensures IsEatingOut(ToggleEatingOut(meal))
    ensures ToggleEatingOut(ToggleEatingOut(meal)) == meal.(recipes := [], notes := Some(""))
  {
  }

  /** A toggled meal is still a valid meal of the schema. */
  lemma ToggleKeepsValid(meal: MealPlan)
    requires ValidMeal(meal)
    ensures ValidMeal(ToggleEatingOut(meal))
  {
  }

  /**
    `splice`'s start position for a list of length `n`: a negative index counts
    from the end and is clamped at 0, a large one is clamped at `n`.
   */
  function SpliceStart(index: int, n: nat): (k: nat)
    ensures k <= n
    ensures 0 <= index <= n ==> k == index
    ensures index < 0 ==> k == if n + index < 0 then 0 else n + index
    ensures index > n ==> k == n
  {
    if index < 0 then (if n + index < 0 then 0 else n + index)
    else if index > n then n
    else index
  }

  /** The list without its element at `k`; unchanged if `k` is past the end. */
  function RemoveAt<T>(s: seq<T>, k: nat): (r: seq<T>)
    requires k <= |s|
  {
    if k == |s| then s else s[..k] + s[k + 1..]
  }

  /**
    `removeRecipe(index)`: copies the list, shifts the elements after the
    removed one down by one and drops the last slot.
   */
  method RemoveRecipe(meal: MealPlan, index: int) returns (updated: MealPlan)
    ensures updated == meal.(recipes := RemoveAt(meal.recipes, SpliceStart(index, |meal.recipes|)))
  {
    var n := |meal.recipes|;
    var k := SpliceStart(index, n);
    if k == n {
      return meal.(recipes := meal.recipes);
    }
    var a := new MealRecipeItem[n](i requires 0 <= i < n => meal.recipes[i]);
    assert a[..] == meal.recipes;
    ShiftDown(a, k);
    updated := meal.(recipes := a[..n - 1]);
  }

  /** Moves every element after position `k` down by one; the first `n - 1` slots then hold the list without its element at `k`. */
  method ShiftDown<T>(a: array<T>, k: nat)
    requires k < a.Length
    modifies a
    ensures a[..a.Length - 1] == RemoveAt(old(a[..]), k)
    ensures a[a.Length - 1] == old(a[a.Length - 1])
  {
    ghost var s := a[..];
    var n := a.Length;
    var i := k;
    while i < n - 1
      invariant k <= i <= n - 1
      invariant forall j :: 0 <= j < k ==> a[j] == s[j]
      invariant forall j :: k <= j < i ==> a[j] == s[j + 1]
      invariant forall j :: i <= j < n ==> a[j] == s[j]
    {
      a[i] := a[i + 1];
      i := i + 1;
    }
    ShiftedIsRemoved(a[..], s, k);
    assert a[..n - 1] == a[..][..n - 1];
  }

  /** After the shift, all but the last slot hold the list without its element at `k`. */
  lemma ShiftedIsRemoved<T>(a: seq<T>, s: seq<T>, k: nat)
    requires |a| == |s| && k < |s|
    requires forall j :: 0 <= j < k ==> a[j] == s[j]
    requires forall j :: k <= j < |s| - 1 ==> a[j] == s[j + 1]
    ensures a[..|s| - 1] == s[..k] + s[k + 1..]
  {
    var want := s[..k] + s[k + 1..];
    forall j | 0 <= j < |s| - 1 ensures a[j] == want[j] {
      if j < k {
        assert want[j] == s[j];
      } else {
        assert want[j] == s[k + 1..][j - k] == s[j + 1];
      }
    }
  }

  /** Removing an existing position shortens the list by one and keeps the others in order. */
  lemma RemoveInRange<T>(s: seq<T>, index: int)
    requires 0 <= index < |s|
    ensures RemoveAt(s, SpliceStart(index, |s|)) == s[..index] + s[index + 1..]
    ensures |RemoveAt(s, SpliceStart(index, |s|))| == |s| - 1
    ensures forall i :: 0 <= i < |s| - 1 ==> RemoveAt(s, SpliceStart(index, |s|))[i] == if i < index then s[i] else s[i + 1]
  {
  }

  /** An index past the end removes nothing. */
  lemma RemovePastEnd<T>(s: seq<T>, index: int)
    requires index >= |s|
    ensures RemoveAt(s, SpliceStart(index, |s|)) == s
  {
  }

  /** A negative index removes the element that far from the end, or the first one. */
  lemma RemoveFromEnd<T>(s: seq<T>, index: int)
    requires index < 0 && s != []
    ensures RemoveAt(s, SpliceStart(index, |s|)) ==
      (if |s| + index < 0 then s[1..] else s[..|s| + index] + s[|s| + index + 1..])
  {
  }

  /** Removing one recipe keeps the meal valid, and removing the last one makes it eaten out. */
  lemma RemoveKeepsValid(meal: MealPlan, index: int)
    requires ValidMeal(meal)
    ensures ValidMeal(meal.(recipes := RemoveAt(meal.recipes, SpliceStart(index, |meal.recipes|))))
    ensures |meal.recipes| == 1 && 0 <= index < 1 ==>
      IsEatingOut(meal.(recipes := RemoveAt(meal.recipes, SpliceStart(index, |meal.recipes|))))
  {
    var s := meal.recipes;
    var k := SpliceStart(index, |s|);
    var r := RemoveAt(s, k);
    forall i | 0 <= i < |r| ensures ValidItem(r[i]) {
      if k < |s| {
        assert r[i] == if i < k then s[i] else s[i + 1];
      }
    }
  }
}
