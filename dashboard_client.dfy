/**
  The dashboard's list logic: toggling a tag in the selected-tag filter, the
  recipes that match the name search and carry every selected tag, the pantry
  items that match their search, and the message shown when a list is empty.
 */
module DashboardClient {
  import opened Wrappers
  import opened Text
  import opened Seqs
  import opened StoreRows

  /** `toggleTag`: removes every copy of a selected tag, keeping the others in order, or appends a new one at the end. */
  function ToggleTag(selected: seq<string>, tag: string): (r: seq<string>)
    ensures tag in selected ==> tag !in r && |r| < |selected|
    ensures tag in selected ==> IsSubseq(r, selected)
    ensures tag !in selected ==> r == selected + [tag]
    ensures forall t :: t != tag ==> (t in r <==> t in selected)
  {
    if tag in selected then
      FilterDrops(selected, Other(tag), tag);
      FilterIsSubseq(selected, Other(tag));
      Filter(selected, Other(tag))
    else selected + [tag]
  }

  function Other(tag: string): string -> bool {
    t => t != tag
  }

  /** Toggling a tag that was not selected and then toggling it again restores the selection. */
  lemma ToggleTwiceRestores(selected: seq<string>, tag: string)
    requires tag !in selected
    ensures ToggleTag(ToggleTag(selected, tag), tag) == selected
  {
    var once := selected + [tag];
    assert tag in once;
    FilterConcat(selected, [tag], Other(tag));
    FilterAll(selected, Other(tag));
    assert Filter([tag], Other(tag)) == [];
  }

  /** A selection built by toggling never holds a tag twice. */
  lemma ToggleKeepsDistinct(selected: seq<string>, tag: string)
    requires NoDup(selected)
    ensures NoDup(ToggleTag(selected, tag))
  {
    if tag in selected {
      FilterIsSubseq(selected, Other(tag));
      SubseqOfDistinct(Filter(selected, Other(tag)), selected);
    }
  }

  /** `name.toLowerCase().includes(search.toLowerCase())`. */
  predicate NameMatches(name: string, search: string) {
    Contains(ToLower(name), ToLower(search))
  }

  /** With no selected tag every recipe passes; otherwise the recipe must carry each of them. */
  predicate TagsMatch(tags: Option<seq<string>>, selected: seq<string>) {
    |selected| == 0 || forall t :: t in selected ==> tags.Some? && t in tags.value
  }

  predicate RecipeMatches(r: RecipeRow, search: string, selected: seq<string>) {
    NameMatches(r.name, search) && TagsMatch(r.tags, selected)
  }

  function RecipeFilter(search: string, selected: seq<string>): RecipeRow -> bool {
    (r: RecipeRow) => RecipeMatches(r, search, selected)
  }

  /** `filteredRecipes`. */
  function FilteredRecipes(recipes: seq<RecipeRow>, search: string, selected: seq<string>): (r: seq<RecipeRow>)
    ensures forall x :: x in r <==> x in recipes && NameMatches(x.name, search) && TagsMatch(x.tags, selected)
    ensures IsSubseq(r, recipes)
  {
    FilterIsSubseq(recipes, RecipeFilter(search, selected));
    Filter(recipes, RecipeFilter(search, selected))
  }

  /** An empty search with no selected tag shows every recipe, in order. */
  lemma EverythingWithoutFilters(recipes: seq<RecipeRow>)
    ensures FilteredRecipes(recipes, "", []) == recipes
  {
    forall x | x in recipes ensures RecipeFilter("", [])(x) {
      ContainsEmpty(ToLower(x.name));
    }
    FilterAll(recipes, RecipeFilter("", []));
  }

  /** Once a tag is selected, a recipe without tags is never shown. */
  lemma TaglessHiddenWhenTagSelected(recipes: seq<RecipeRow>, search: string, selected: seq<string>, x: RecipeRow)
    requires selected != [] && x.tags.None?
    ensures x !in FilteredRecipes(recipes, search, selected)
  {
    assert selected[0] in selected;
  }

  /** Selecting more tags can only narrow the list, keeping its order. */
  lemma MoreTagsNarrow(recipes: seq<RecipeRow>, search: string, selected: seq<string>, extra: seq<string>)
    ensures IsSubseq(FilteredRecipes(recipes, search, selected + extra), FilteredRecipes(recipes, search, selected))
  {
    forall x | x in recipes && RecipeFilter(search, selected + extra)(x) ensures RecipeFilter(search, selected)(x) {
      if selected != [] {
        assert selected[0] in selected + extra;
      }
    }
    FilterStronger(recipes, RecipeFilter(search, selected + extra), RecipeFilter(search, selected));
  }

  /** The order and repetitions of the selected tags do not matter, only which tags they are. */
  lemma OnlyTheTagSetMatters(recipes: seq<RecipeRow>, search: string, a: seq<string>, b: seq<string>)
    requires forall t :: t in a <==> t in b
    ensures FilteredRecipes(recipes, search, a) == FilteredRecipes(recipes, search, b)
  {
    if a != [] {
      assert a[0] in b;
    }
    if b != [] {
      assert b[0] in a;
    }
    FilterSameCondition(recipes, RecipeFilter(search, a), RecipeFilter(search, b));
  }

  /** The search ignores case: lower-casing the search text changes nothing. */
  lemma RecipeSearchIgnoresCase(recipes: seq<RecipeRow>, search: string, selected: seq<string>)
    ensures FilteredRecipes(recipes, ToLower(search), selected) == FilteredRecipes(recipes, search, selected)
  {
    ToLowerIdempotent(search);
    FilterSameCondition(recipes, RecipeFilter(ToLower(search), selected), RecipeFilter(search, selected));
  }

  function PantryFilter(search: string): PantryRow -> bool {
    (item: PantryRow) => NameMatches(item.name, search)
  }

  /** `filteredPantry`. */
  function FilteredPantry(items: seq<PantryRow>, search: string): (r: seq<PantryRow>)
    ensures forall x :: x in r <==> x in items && NameMatches(x.name, search)
    ensures IsSubseq(r, items)
  {
    FilterIsSubseq(items, PantryFilter(search));
    Filter(items, PantryFilter(search))
  }

  lemma WholePantryWithoutSearch(items: seq<PantryRow>)
    ensures FilteredPantry(items, "") == items
  {
    forall x | x in items ensures PantryFilter("")(x) {
      ContainsEmpty(ToLower(x.name));
    }
    FilterAll(items, PantryFilter(""));
  }

  /** A pantry item is listed exactly when its lower-cased name holds the lower-cased search at some position. */
  lemma PantryMatchIff(items: seq<PantryRow>, search: string, x: PantryRow)
    requires x in items
    ensures x in FilteredPantry(items, search) <==> exists i :: OccursAt(ToLower(x.name), ToLower(search), i)
  {
    ContainsIff(ToLower(x.name), ToLower(search));
  }

  /** The message under an empty list: none while something is listed, otherwise by whether a search is typed. */
  function EmptyMessage(shown: nat, search: string, whenSearching: string, otherwise: string): (m: Option<string>)
    ensures m.Some? <==> shown == 0
    ensures m.Some? ==> m.value == (if search != "" then whenSearching else otherwise)
  {
    if shown > 0 then None else Some(if search != "" then whenSearching else otherwise)
  }

  function RecipesMessage(recipes: seq<RecipeRow>, search: string, selected: seq<string>): Option<string> {
    EmptyMessage(|FilteredRecipes(recipes, search, selected)|, search, "Nessuna ricetta trovata.", "Nessuna ricetta salvata.")
  }

  function PantryMessage(items: seq<PantryRow>, search: string): Option<string> {
    EmptyMessage(|FilteredPantry(items, search)|, search, "Nessun ingrediente trovato.", "La dispensa \U{E8} vuota.")
  }

  /** Without a search the pantry message says the pantry is empty exactly when it is. */
  lemma PantryMessageTruthful(items: seq<PantryRow>)
    ensures PantryMessage(items, "") == Some("La dispensa \U{E8} vuota.") <==> items == []
  {
    WholePantryWithoutSearch(items);
  }

  /**
    With no search text but some tag selected, recipes that carry no tags are
    all hidden, and the dashboard says no recipe is saved although some are.
   */
  lemma SavedMessageUnderTagFilter(recipes: seq<RecipeRow>, selected: seq<string>)
    requires selected != []
    requires forall i :: 0 <= i < |recipes| ==> recipes[i].tags.None?
    ensures FilteredRecipes(recipes, "", selected) == []
    ensures RecipesMessage(recipes, "", selected) == Some("Nessuna ricetta salvata.")
  {
    var shown := FilteredRecipes(recipes, "", selected);
    if shown != [] {
      var x := shown[0];
      assert x in recipes;
      TaglessHiddenWhenTagSelected(recipes, "", selected, x);
      assert false;
    }
  }
}
