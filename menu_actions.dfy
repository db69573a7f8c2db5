/**
  The pure parts of the server actions: the pantry and recipe context strings
  put into the menu prompt, and the comma-separated ingredient and tag lists
  read from the new-recipe form.
 */
module MenuActions {
  import opened Wrappers
  import opened Text
  import opened JsonValues
  import opened StoreRows

  // ---------------------------------------------------------------------------
  // Prompt context
  // ---------------------------------------------------------------------------

  /** A template literal renders a `null` column as the text `null`. */
  function TemplateText(v: Option<string>): string {
    if v.Some? then v.value else "null"
  }

  /** `${item.name} (${item.quantity})`. */
  function PantryEntry(item: PantryRow): (e: string)
    ensures e == item.name + " (" + TemplateText(item.quantity) + ")"
    ensures e[|item.name| + 1] == '('
  {
    item.name + " (" + TemplateText(item.quantity) + ")"
  }

  function PantryEntries(items: seq<PantryRow>): (r: seq<string>)
    ensures |r| == |items| && forall i :: 0 <= i < |items| ==> r[i] == PantryEntry(items[i])
  {
    seq(|items|, i requires 0 <= i < |items| => PantryEntry(items[i]))
  }

  const EmptyPantry: string := "Vuota"

  /** `pantryItems?.map(...).join(', ') || 'Vuota'`: a missing list and an empty join both give the fallback. */
  function PantryContext(items: Option<seq<PantryRow>>): string {
    var joined := if items.Some? then Join(PantryEntries(items.value), ", ") else "";
    if joined == "" then EmptyPantry else joined
  }

  /** The pantry context is the fallback exactly when there is no pantry item. */
  lemma PantryContextIff(items: Option<seq<PantryRow>>)
    ensures PantryContext(items) == EmptyPantry <==> items.None? || items.value == []
  {
    if items.Some? && items.value != [] {
      var es := PantryEntries(items.value);
      var k := |items.value[0].name| + 1;
      JoinStartsWithFirst(es, ", ");
      var j := Join(es, ", ");
      assert j[k] == es[0][k] == '(';
    }
  }

  /** With one pantry item the context is that item's entry. */
  lemma PantrySingle(item: PantryRow)
    ensures PantryContext(Some([item])) == item.name + " (" + TemplateText(item.quantity) + ")"
  {
    assert |PantryEntries([item])| == 1;
  }

  /** Adding an item to the end of the pantry appends its entry after a comma. */
  lemma PantryAppend(items: seq<PantryRow>, item: PantryRow)
    requires items != []
    ensures PantryContext(Some(items + [item])) == PantryContext(Some(items)) + ", " + PantryEntry(item)
  {
    var es := PantryEntries(items);
    assert PantryEntries(items + [item]) == es + [PantryEntry(item)];
    JoinSnoc(es, PantryEntry(item), ", ");
    PantryContextIff(Some(items));
    PantryContextIff(Some(items + [item]));
  }

  /** `${r.name}: ${JSON.stringify(r.ingredients)}`, with the serialiser as a parameter. */
  function RecipeLine(r: RecipeRow, stringify: Json -> string): (line: string)
    ensures line == r.name + ": " + stringify(r.ingredients)
    ensures line[|r.name|] == ':'
  {
    r.name + ": " + stringify(r.ingredients)
  }

  function RecipeLines(recipes: seq<RecipeRow>, stringify: Json -> string): (ls: seq<string>)
    ensures |ls| == |recipes| && forall i :: 0 <= i < |recipes| ==> ls[i] == RecipeLine(recipes[i], stringify)
  {
    seq(|recipes|, i requires 0 <= i < |recipes| => RecipeLine(recipes[i], stringify))
  }

  const NoRecipes: string := "Nessuna ricetta salvata"

  /** `recipes?.map(...).join('\n') || 'Nessuna ricetta salvata'`. */
  function RecipesContext(recipes: Option<seq<RecipeRow>>, stringify: Json -> string): string {
    var joined := if recipes.Some? then Join(RecipeLines(recipes.value, stringify), "\n") else "";
    if joined == "" then NoRecipes else joined
  }

  /** The recipe context is the fallback exactly when there is no recipe. */
  lemma RecipesContextIff(recipes: Option<seq<RecipeRow>>, stringify: Json -> string)
    ensures RecipesContext(recipes, stringify) == NoRecipes <==> recipes.None? || recipes.value == []
  {
    if recipes.Some? && recipes.value != [] {
      var ls := RecipeLines(recipes.value, stringify);
      var k := |recipes.value[0].name|;
      JoinStartsWithFirst(ls, "\n");
      var j := Join(ls, "\n");
      assert j[k] == ls[0][k] == ':';
    }
  }

  /**
    Splitting the recipe context at line breaks gives back one line per recipe,
    in order, as long as no name or serialised ingredient list holds a line break.
   */
  lemma OneLinePerRecipe(recipes: seq<RecipeRow>, stringify: Json -> string)
    requires recipes != []
    requires forall i :: 0 <= i < |recipes| ==> '\n' !in recipes[i].name && '\n' !in stringify(recipes[i].ingredients)
    ensures Split(RecipesContext(Some(recipes), stringify), '\n') == RecipeLines(recipes, stringify)
    ensures |Split(RecipesContext(Some(recipes), stringify), '\n')| == |recipes|
  {
    var ls := RecipeLines(recipes, stringify);
    forall k | 0 <= k < |ls| ensures '\n' !in ls[k] {
      assert ls[k] == recipes[k].name + ": " + stringify(recipes[k].ingredients);
    }
    RecipesContextIff(Some(recipes), stringify);
    JoinSplit(ls, '\n');
  }

  // ---------------------------------------------------------------------------
  // The new-recipe form
  // ---------------------------------------------------------------------------

  datatype Ingredient = Ingredient(name: string)

  function Trimmed(pieces: seq<string>): (r: seq<string>)
    ensures |r| == |pieces| && forall i :: 0 <= i < |pieces| ==> r[i] == Trim(pieces[i])
  {
    seq(|pieces|, i requires 0 <= i < |pieces| => Trim(pieces[i]))
  }

  /** `tagsRaw.split(',').map(t => t.trim())`. */
  function ParseTags(raw: string): seq<string> {
    Trimmed(Split(raw, ','))
  }

  /** `ingredientsRaw.split(',').map(i => ({ name: i.trim() }))`. */
  function ParseIngredients(raw: string): (r: seq<Ingredient>)
    ensures |r| == |ParseTags(raw)| && forall i :: 0 <= i < |r| ==> r[i] == Ingredient(ParseTags(raw)[i])
  {
    var names := ParseTags(raw);
    seq(|names|, i requires 0 <= i < |names| => Ingredient(names[i]))
  }

  /** There is one ingredient per comma-separated piece: one more than the commas. */
  lemma IngredientCount(raw: string)
    ensures |ParseIngredients(raw)| == CountChar(raw, ',') + 1
    ensures |ParseTags(raw)| == CountChar(raw, ',') + 1
  {
    SplitPieces(raw, ',');
  }

  /** Each parsed name is trimmed and holds no comma. */
  lemma ParsedNamesClean(raw: string)
    ensures forall i :: 0 <= i < |ParseTags(raw)| ==> IsTrimmed(ParseTags(raw)[i]) && ',' !in ParseTags(raw)[i]
  {
    SplitPieces(raw, ',');
    var pieces := Split(raw, ',');
    forall i | 0 <= i < |pieces| ensures IsTrimmed(Trim(pieces[i])) && ',' !in Trim(pieces[i]) {
      var t := Trim(pieces[i]);
    }
  }

  /** An empty field gives one ingredient with an empty name. */
  lemma EmptyIngredients()
    ensures ParseIngredients("") == [Ingredient("")]
  {
    assert Split("", ',') == [""];
    assert Trim("") == "";
  }

  /** No white space at either end. */
  predicate IsTrimmed(x: string) {
    x == [] || (!IsSpace(x[0]) && !IsSpace(x[|x| - 1]))
  }

  lemma TrimOfTrimmed(x: string)
    requires IsTrimmed(x)
    ensures Trim(x) == x
  {
  }

  lemma TrimAfterSpace(x: string)
    ensures Trim(" " + x) == Trim(x)
  {
    assert (" " + x)[1..] == x;
  }

  /** Each element after the first, with the space of a `", "` separator in front of it. */
  function SpacedTail(xs: seq<string>): (r: seq<string>)
    requires xs != []
    ensures |r| == |xs| && r[0] == xs[0]
    ensures forall i :: 1 <= i < |xs| ==> r[i] == " " + xs[i]
  {
    [xs[0]] + seq(|xs| - 1, i requires 0 <= i < |xs| - 1 => " " + xs[i + 1])
  }

  lemma {:induction false} JoinCommaSpace(xs: seq<string>)
    requires xs != []
    ensures Join(xs, ", ") == Join(SpacedTail(xs), ",")
  {
    if |xs| > 1 {
      var rest := xs[1..];
      JoinCommaSpace(rest);
      var r, t := SpacedTail(xs), SpacedTail(rest);
      assert r[1..] == [" " + rest[0]] + t[1..];
      if |rest| == 1 {
        assert Join(r, ",") == xs[0] + "," + (" " + rest[0]);
      } else {
        JoinCons(" " + rest[0], t[1..], ",");
        JoinCons(rest[0], t[1..], ",");
        assert t == [rest[0]] + t[1..];
        assert Join(r, ",") == xs[0] + "," + Join(r[1..], ",");
      }
    }
  }

  /**
    Tags written back as `a, b, c` parse to the same tags, provided each is
    trimmed and holds no comma.
   */
  lemma TagsRoundTrip(tags: seq<string>)
    requires tags != []
    requires forall i :: 0 <= i < |tags| ==> IsTrimmed(tags[i]) && ',' !in tags[i]
    ensures ParseTags(Join(tags, ", ")) == tags
  {
    var spaced := SpacedTail(tags);
    JoinCommaSpace(tags);
    SpacedHasNoComma(tags);
    JoinSplit(spaced, ',');
    TrimSpaced(tags);
  }

  lemma SpacedHasNoComma(tags: seq<string>)
    requires tags != []
    requires forall i :: 0 <= i < |tags| ==> ',' !in tags[i]
    ensures forall k :: 0 <= k < |tags| ==> ',' !in SpacedTail(tags)[k]
  {
    var spaced := SpacedTail(tags);
    forall k | 0 <= k < |spaced| ensures ',' !in spaced[k] {
      if k > 0 {
        assert spaced[k] == " " + tags[k];
      }
    }
  }

  lemma TrimSpaced(tags: seq<string>)
    requires tags != []
    requires forall i :: 0 <= i < |tags| ==> IsTrimmed(tags[i])
    ensures Trimmed(SpacedTail(tags)) == tags
  {
    var spaced := SpacedTail(tags);
    forall i | 0 <= i < |tags| ensures Trimmed(spaced)[i] == tags[i] {
      TrimPiece(tags[i], spaced[i], i == 0);
    }
  }

  lemma TrimPiece(x: string, piece: string, first: bool)
    requires IsTrimmed(x) && piece == if first then x else " " + x
    ensures Trim(piece) == x
  {
    if !first {
      TrimAfterSpace(x);
    }
    TrimOfTrimmed(x);
  }

  /** The `ingredients` column the form stores: a list of `{name}` objects. */
  function IngredientsJson(xs: seq<Ingredient>): (j: Json)
    ensures j.JArr? && |j.items| == |xs|
    ensures forall i :: 0 <= i < |xs| ==> j.items[i] == JObj(map["name" := JStr(xs[i].name)])
  {
    JArr(seq(|xs|, i requires 0 <= i < |xs| => JObj(map["name" := JStr(xs[i].name)])))
  }
}
