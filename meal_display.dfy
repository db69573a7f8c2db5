/**
  The logic of the meal card: the set of classes its recipes cover, filled
  recipe by recipe and class by class; the canonical classes it misses; and
  its recipes sorted with the main dishes first by a stable comparator sort.
 */
module MealDisplay {
  import opened Seqs
  import opened WeeklyPlan
  import PlannerUtils

  function ClassSet(cs: seq<NutritionalClass>): set<NutritionalClass> {
    set c | c in cs
  }

  /** The classes of the recipes `rs`, gathered from the first recipe to the last. */
  function ClassesOf(rs: seq<MealRecipeItem>): set<NutritionalClass>
    decreases |rs|
  {
    if rs == [] then {} else ClassesOf(rs[..|rs| - 1]) + ClassSet(rs[|rs| - 1].nutritionalClasses)
  }

  /** A class is covered exactly when some recipe lists it. */
  lemma {:induction false} ClassesOfIff(rs: seq<MealRecipeItem>, c: NutritionalClass)
    ensures c in ClassesOf(rs) <==> exists i :: 0 <= i < |rs| && c in rs[i].nutritionalClasses
    decreases |rs|
  {
    if rs != [] {
      var init := rs[..|rs| - 1];
      ClassesOfIff(init, c);
      if c in ClassesOf(init) {
        var i :| 0 <= i < |init| && c in init[i].nutritionalClasses;
        assert rs[i] == init[i];
      }
      if exists i :: 0 <= i < |rs| && c in rs[i].nutritionalClasses {
        var i :| 0 <= i < |rs| && c in rs[i].nutritionalClasses;
        if i < |rs| - 1 {
          assert init[i] == rs[i];
        }
      }
    }
  }

  /** Adding recipe `x` adds exactly its classes. */
  lemma ClassesOfAppend(rs: seq<MealRecipeItem>, x: MealRecipeItem)
    ensures ClassesOf(rs + [x]) == ClassesOf(rs) + ClassSet(x.nutritionalClasses)
  {
    assert (rs + [x])[..|rs + [x]| - 1] == rs;
  }

  /** `classesCovered`: a set filled by nested loops over the recipes and their classes. */
  method CoveredClasses(meal: MealPlan) returns (covered: set<NutritionalClass>)
    ensures covered == ClassesOf(meal.recipes)
  {
    covered := {};
    var i := 0;
    while i < |meal.recipes|
      invariant 0 <= i <= |meal.recipes|
      invariant covered == ClassesOf(meal.recipes[..i])
    {
      var cs := meal.recipes[i].nutritionalClasses;
      var j := 0;
      while j < |cs|
        invariant 0 <= j <= |cs|
        invariant covered == ClassesOf(meal.recipes[..i]) + ClassSet(cs[..j])
      {
        assert cs[..j + 1] == cs[..j] + [cs[j]];
        covered := covered + {cs[j]};
        j := j + 1;
      }
      assert cs[..j] == cs;
      assert meal.recipes[..i + 1][..i] == meal.recipes[..i];
      i := i + 1;
    }
    assert meal.recipes[..i] == meal.recipes;
  }

  lemma EveryClassIsCanonical(c: NutritionalClass)
    ensures c in AllClasses
  {
  }

  /** `missingClasses`: the canonical classes outside `covered`, in the order veg, carbs, protein. */
  function MissingClasses(covered: set<NutritionalClass>): (r: seq<NutritionalClass>)
    ensures forall c :: c in r <==> c !in covered
    ensures IsSubseq(r, AllClasses)
  {
    var p := (c: NutritionalClass) => c !in covered;
    FilterIsSubseq(AllClasses, p);
    assert forall c :: c in AllClasses by {
      forall c: NutritionalClass ensures c in AllClasses {
        EveryClassIsCanonical(c);
      }
    }
    Filter(AllClasses, p)
  }

  /** The classes a meal misses. */
  function MealMissing(meal: MealPlan): seq<NutritionalClass> {
    MissingClasses(ClassesOf(meal.recipes))
  }

  /** A meal with no recipes misses all three classes. */
  lemma NoRecipesMissAll(meal: MealPlan)
    requires meal.recipes == []
    ensures MealMissing(meal) == [Veg, Carbs, Protein]
  {
    FilterOfThree(Veg, Carbs, Protein, (c: NutritionalClass) => c !in ClassesOf(meal.recipes));
  }

  /** Adding a recipe to a meal never adds a missing class; the remaining ones keep their order. */
  lemma AppendNeverAddsMissing(meal: MealPlan, x: MealRecipeItem)
    ensures IsSubseq(MealMissing(meal.(recipes := meal.recipes + [x])), MealMissing(meal))
    ensures forall c :: c in MealMissing(meal.(recipes := meal.recipes + [x])) ==> c in MealMissing(meal)
  {
    var before, after := ClassesOf(meal.recipes), ClassesOf(meal.recipes + [x]);
    ClassesOfAppend(meal.recipes, x);
    FilterStronger(AllClasses, (c: NutritionalClass) => c !in after, (c: NutritionalClass) => c !in before);
  }

  /** The class names listed by the recipes, recipe after recipe. */
  function AllClassNames(rs: seq<MealRecipeItem>): seq<string>
    decreases |rs|
  {
    if rs == [] then [] else AllClassNames(rs[..|rs| - 1]) + ClassNames(rs[|rs| - 1].nutritionalClasses)
  }

  lemma ClassNameInjective(c: NutritionalClass, d: NutritionalClass)
    ensures ClassName(c) == ClassName(d) ==> c == d
  {
    assert |ClassName(Veg)| == 3 && |ClassName(Carbs)| == 5 && |ClassName(Protein)| == 7;
  }

  lemma {:induction false} AllClassNamesIff(rs: seq<MealRecipeItem>, c: NutritionalClass)
    ensures ClassName(c) in AllClassNames(rs) <==> c in ClassesOf(rs)
    decreases |rs|
  {
    if rs != [] {
      AllClassNamesIff(rs[..|rs| - 1], c);
      var cs := rs[|rs| - 1].nutritionalClasses;
      if ClassName(c) in ClassNames(cs) {
        var k :| 0 <= k < |cs| && ClassNames(cs)[k] == ClassName(c);
        ClassNameInjective(c, cs[k]);
      }
      if c in cs {
        var k :| 0 <= k < |cs| && cs[k] == c;
        assert ClassNames(cs)[k] == ClassName(c);
      }
    }
  }

  /**
    The meal card and the planner's coverage rule agree: the names of the
    classes the card misses are the missing classes `checkCoverage` reports
    for the meal's class list.
   */
  lemma MissingAgreesWithCheckCoverage(meal: MealPlan)
    ensures ClassNames(MealMissing(meal)) == PlannerUtils.CheckCoverage(AllClassNames(meal.recipes)).missingClasses
  {
    var names := AllClassNames(meal.recipes);
    var m := MealMissing(meal);
    var r := PlannerUtils.CheckCoverage(names).missingClasses;
    forall c ensures c in m <==> ClassName(c) in r {
      ClassMissingIff(meal.recipes, c);
    }
    NamesOfSameChoice(m, r);
  }

  /** One class is missing from the card exactly when its name is missing for `checkCoverage`. */
  lemma ClassMissingIff(rs: seq<MealRecipeItem>, c: NutritionalClass)
    ensures c in MissingClasses(ClassesOf(rs)) <==> ClassName(c) in PlannerUtils.CheckCoverage(AllClassNames(rs)).missingClasses
  {
    AllClassNamesIff(rs, c);
    var req := PlannerUtils.RequiredNutritionalClasses;
    assert ClassName(c) in req by {
      assert req[0] == "veg" && req[1] == "carbs" && req[2] == "protein";
    }
  }

  /** Two subsequences of the canonical classes and of their names that make the same choices correspond. */
  lemma NamesOfSameChoice(m: seq<NutritionalClass>, r: seq<string>)
    requires IsSubseq(m, AllClasses) && IsSubseq(r, PlannerUtils.RequiredNutritionalClasses)
    requires forall c :: c in m <==> ClassName(c) in r
    ensures ClassNames(m) == r
  {
    assert ClassName(Veg) == "veg" && ClassName(Carbs) == "carbs" && ClassName(Protein) == "protein";
    DistinctNames();
    SubseqOfThree(m, Veg, Carbs, Protein);
    SubseqOfThree(r, "veg", "carbs", "protein");
    ClassNamesOfChoice(Veg in m, Carbs in m, Protein in m);
  }

  lemma DistinctNames()
    ensures "veg" != "carbs" && "veg" != "protein" && "carbs" != "protein"
  {
    assert |"veg"| == 3 && |"carbs"| == 5 && |"protein"| == 7;
  }

  lemma ClassNamesOfChoice(v: bool, c: bool, p: bool)
    ensures ClassNames((if v then [Veg] else []) + (if c then [Carbs] else []) + (if p then [Protein] else []))
      == (if v then ["veg"] else []) + (if c then ["carbs"] else []) + (if p then ["protein"] else [])
  {
  }

  /** The incomplete-coverage warning is shown exactly when some canonical class is not covered. */
  predicate ShowsWarning(meal: MealPlan) {
    |MealMissing(meal)| > 0
  }

  lemma WarningIff(meal: MealPlan)
    ensures ShowsWarning(meal) <==> !(Veg in ClassesOf(meal.recipes) && Carbs in ClassesOf(meal.recipes) && Protein in ClassesOf(meal.recipes))
  {
    var m := MealMissing(meal);
    if |m| > 0 {
      assert m[0] in m;
    }
  }

  // ---------------------------------------------------------------------------
  // Main dishes first
  // ---------------------------------------------------------------------------

  /** The comparator of `sortedRecipes`: a main before a non-main, otherwise equal. */
  function RoleCompare(a: MealRecipeItem, b: MealRecipeItem): int {
    if a.mealRole == Main && b.mealRole != Main then -1
    else if a.mealRole != Main && b.mealRole == Main then 1
    else 0
  }

  /**
    Inserts `x`, which came before every element of `s`, into the sorted `s`:
    it passes only the elements that the comparator puts strictly before it.
   */
  function Insert<T>(x: T, s: seq<T>, cmp: (T, T) -> int): (r: seq<T>)
    ensures |r| == |s| + 1
  {
    if s == [] then [x]
    else if cmp(s[0], x) < 0 then [s[0]] + Insert(x, s[1..], cmp)
    else [x] + s
  }

  /** `sort(cmp)`: a stable sort, as the language requires of `Array.prototype.sort`. */
  function StableSort<T>(s: seq<T>, cmp: (T, T) -> int): (r: seq<T>)
    ensures |r| == |s|
  {
    if s == [] then [] else Insert(s[0], StableSort(s[1..], cmp), cmp)
  }

  lemma {:induction false} InsertPermutes<T>(x: T, s: seq<T>, cmp: (T, T) -> int)
    ensures multiset(Insert(x, s, cmp)) == multiset(s) + multiset{x}
  {
    if s != [] && cmp(s[0], x) < 0 {
      InsertPermutes(x, s[1..], cmp);
      ConsPermutes(s[0], s[1..], Insert(x, s[1..], cmp), x);
      assert s == [s[0]] + s[1..];
    } else {
      assert multiset([x] + s) == multiset{x} + multiset(s);
    }
  }

  lemma ConsPermutes<T>(h: T, s: seq<T>, t: seq<T>, x: T)
    requires multiset(t) == multiset(s) + multiset{x}
    ensures multiset([h] + t) == multiset([h] + s) + multiset{x}
  {
    assert multiset([h] + t) == multiset{h} + multiset(t);
    assert multiset([h] + s) == multiset{h} + multiset(s);
  }

  /** Sorting only reorders: the result has the same elements with the same multiplicities. */
  lemma {:induction false} SortPermutes<T>(s: seq<T>, cmp: (T, T) -> int)
    ensures multiset(StableSort(s, cmp)) == multiset(s)
  {
    if s != [] {
      SortPermutes(s[1..], cmp);
      InsertPermutes(s[0], StableSort(s[1..], cmp), cmp);
      assert s == [s[0]] + s[1..];
    }
  }

  predicate IsMain(r: MealRecipeItem) {
    r.mealRole == Main
  }

  predicate IsSide(r: MealRecipeItem) {
    !IsMain(r)
  }

  /** `sortedRecipes`: a sorted copy; the meal's own list is a value and stays as it is. */
  function SortedRecipes(rs: seq<MealRecipeItem>): seq<MealRecipeItem> {
    StableSort(rs, RoleCompare)
  }

  lemma {:induction false} InsertSide(x: MealRecipeItem, mains: seq<MealRecipeItem>, sides: seq<MealRecipeItem>)
    requires !IsMain(x)
    requires forall i :: 0 <= i < |mains| ==> IsMain(mains[i])
    requires sides == [] || !IsMain(sides[0])
    ensures Insert(x, mains + sides, RoleCompare) == mains + ([x] + sides)
  {
    if mains != [] {
      assert (mains + sides)[0] == mains[0] && (mains + sides)[1..] == mains[1..] + sides;
      InsertSide(x, mains[1..], sides);
      assert mains == [mains[0]] + mains[1..];
    } else {
      assert mains + sides == sides;
    }
  }

  /**
    The sorted list is the mains in their original order followed by the other
    recipes in their original order.
   */
  lemma {:induction false} SortedIsMainsThenSides(rs: seq<MealRecipeItem>)
    ensures SortedRecipes(rs) == Filter(rs, IsMain) + Filter(rs, IsSide)
  {
    if rs != [] {
      SortedIsMainsThenSides(rs[1..]);
      if IsMain(rs[0]) {
        MainStep(rs);
      } else {
        SideStep(rs);
      }
    }
  }

  lemma MainStep(rs: seq<MealRecipeItem>)
    requires rs != [] && IsMain(rs[0])
    requires SortedRecipes(rs[1..]) == Filter(rs[1..], IsMain) + Filter(rs[1..], IsSide)
    ensures SortedRecipes(rs) == Filter(rs, IsMain) + Filter(rs, IsSide)
  {
    SortCons(rs);
    InsertMain(rs[0], Filter(rs[1..], IsMain), Filter(rs[1..], IsSide));
    FilterHead(rs, IsMain);
    FilterHead(rs, IsSide);
    EmptyPrefix(Filter(rs[1..], IsSide));
  }

  lemma SideStep(rs: seq<MealRecipeItem>)
    requires rs != [] && !IsMain(rs[0])
    requires SortedRecipes(rs[1..]) == Filter(rs[1..], IsMain) + Filter(rs[1..], IsSide)
    ensures SortedRecipes(rs) == Filter(rs, IsMain) + Filter(rs, IsSide)
  {
    var x, mains, sides := rs[0], Filter(rs[1..], IsMain), Filter(rs[1..], IsSide);
    SortCons(rs);
    AllMains(rs[1..]);
    if sides != [] {
      assert sides[0] in sides;
    }
    InsertSide(x, mains, sides);
    FilterHead(rs, IsMain);
    FilterHead(rs, IsSide);
    EmptyPrefix(mains);
  }

  lemma SortCons(rs: seq<MealRecipeItem>)
    requires rs != []
    ensures SortedRecipes(rs) == Insert(rs[0], SortedRecipes(rs[1..]), RoleCompare)
  {
  }

  lemma AllMains(rs: seq<MealRecipeItem>)
    ensures forall i :: 0 <= i < |Filter(rs, IsMain)| ==> IsMain(Filter(rs, IsMain)[i])
  {
    var mains := Filter(rs, IsMain);
    forall i | 0 <= i < |mains| ensures IsMain(mains[i]) {
      assert mains[i] in mains;
    }
  }

  /** A main dish is inserted in front. */
  lemma InsertMain(x: MealRecipeItem, mains: seq<MealRecipeItem>, sides: seq<MealRecipeItem>)
    requires IsMain(x)
    ensures Insert(x, mains + sides, RoleCompare) == ([x] + mains) + sides
  {
    ConsAssoc(x, mains, sides);
  }

  /** The sorted list has the meal's recipes, each as often as in the meal. */
  lemma SortedIsPermutation(rs: seq<MealRecipeItem>)
    ensures multiset(SortedRecipes(rs)) == multiset(rs)
  {
    SortPermutes(rs, RoleCompare);
  }

  /** In the sorted list the first positions hold exactly the main dishes. */
  lemma MainsComeFirst(rs: seq<MealRecipeItem>)
    ensures forall i :: 0 <= i < |SortedRecipes(rs)| ==>
      (IsMain(SortedRecipes(rs)[i]) <==> i < |Filter(rs, IsMain)|)
  {
    SortedIsMainsThenSides(rs);
    var mains, sides := Filter(rs, IsMain), Filter(rs, IsSide);
    var s := SortedRecipes(rs);
    forall i | 0 <= i < |s| ensures IsMain(s[i]) <==> i < |mains| {
      if i < |mains| {
        assert s[i] == mains[i] && mains[i] in mains;
      } else {
        assert s[i] == sides[i - |mains|] && sides[i - |mains|] in sides;
      }
    }
  }

  /** Hence every main dish comes before every other recipe. */
  lemma MainsPrecedeSides(rs: seq<MealRecipeItem>, i: int, j: int)
    requires 0 <= i < |SortedRecipes(rs)| && 0 <= j < |SortedRecipes(rs)|
    requires IsMain(SortedRecipes(rs)[j]) && !IsMain(SortedRecipes(rs)[i])
    ensures j < i
  {
    MainsComeFirst(rs);
  }

  /** Sorting keeps the relative order among the mains and among the other recipes. */
  lemma SortIsStable(rs: seq<MealRecipeItem>)
    ensures Filter(SortedRecipes(rs), IsMain) == Filter(rs, IsMain)
    ensures Filter(SortedRecipes(rs), IsSide) == Filter(rs, IsSide)
  {
    var mains, sides := Filter(rs, IsMain), Filter(rs, IsSide);
    SortedIsMainsThenSides(rs);
    FilterConcat(mains, sides, IsMain);
    FilterConcat(mains, sides, IsSide);
    FilterAll(mains, IsMain);
    FilterAll(sides, IsSide);
    FilterNone(mains, IsSide);
    FilterNone(sides, IsMain);
  }

  /** What the meal card shows: the classes it misses, the sorted recipes and whether it warns. */
  method Render(meal: MealPlan) returns (missing: seq<NutritionalClass>, sorted: seq<MealRecipeItem>, warning: bool)
    ensures missing == MealMissing(meal)
    ensures sorted == SortedRecipes(meal.recipes)
    ensures warning <==> ShowsWarning(meal)
  {
    var covered := CoveredClasses(meal);
    missing := MissingClasses(covered);
    sorted := SortedRecipes(meal.recipes);
    warning := |missing| > 0;
  }
}
