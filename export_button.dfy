/**
  The export button: the recipe and pantry lists as CSV text, one weekly plan
  as a Markdown document, the plan history as JSON, and the name each file is
  downloaded under.
 */
module ExportButton {
  import opened Wrappers
  import opened Text
  import opened Seqs
  import opened JsonValues
  import opened WeeklyPlan
  import opened StoreRows
  import opened Csv
  import DayCard
  import MenuActions

  // ---------------------------------------------------------------------------
  // File names
  // ---------------------------------------------------------------------------

  /** `filename.endsWith(ext) ? filename : `${filename}${ext}``. */
  function WithExtension(filename: string, ext: string): (r: string)
    ensures EndsWith(r, ext)
    ensures StartsWith(r, filename)
    ensures |r| <= |filename| + |ext|
  {
    if EndsWith(filename, ext) then filename else filename + ext
  }

  /** A name that already has the extension is kept, and adding the extension twice adds it once. */
  lemma ExtensionOnce(filename: string, ext: string)
    ensures EndsWith(filename, ext) ==> WithExtension(filename, ext) == filename
    ensures WithExtension(WithExtension(filename, ext), ext) == WithExtension(filename, ext)
    ensures !EndsWith(filename, ext) ==> WithExtension(filename, ext)[..|filename|] == filename
  {
  }

  // ---------------------------------------------------------------------------
  // How `join` writes the values it is given
  // ---------------------------------------------------------------------------

  function DigitChar(d: nat): char
    requires d < 10
  {
    (48 + d) as char
  }

  function DigitValue(c: char): int {
    c as int - 48
  }

  /** The decimal digits of a natural number, without leading zeros. */
  function NatText(n: nat): (r: string)
    ensures |r| >= 1
    ensures forall k :: 0 <= k < |r| ==> '0' <= r[k] <= '9'
    ensures |r| > 1 ==> r[0] != '0'
    decreases n
  {
    if n < 10 then [DigitChar(n)] else NatText(n / 10) + [DigitChar(n % 10)]
  }

  /** The number a string of decimal digits denotes. */
  function DigitsValue(s: string): int {
    if s == [] then 0 else 10 * DigitsValue(s[..|s| - 1]) + DigitValue(s[|s| - 1])
  }

  /** Reading the digits back gives the number. */
  lemma {:induction false} NatTextValue(n: nat)
    ensures DigitsValue(NatText(n)) == n
  {
    if n >= 10 {
      var r := NatText(n);
      assert r[..|r| - 1] == NatText(n / 10);
      NatTextValue(n / 10);
    }
  }

  /** `String(n)` of a whole number. */
  function IntText(n: int): string {
    if n < 0 then "-" + NatText(-n) else NatText(n)
  }

  /**
    How `join` writes one element: `null` as nothing, a nested list joined by
    commas, an object as `[object Object]`.
   */
  function ElementText(v: Json): string
    decreases v
  {
    match v
    case JNull => ""
    case JBool(b) => if b then "true" else "false"
    case JNum(n) => IntText(n)
    case JStr(s) => s
    case JArr(items) => Join(seq(|items|, k requires 0 <= k < |items| => ElementText(items[k])), ",")
    case JObj(_) => "[object Object]"
  }

  /**
    `i.name` as `join` writes it. A `null` element makes the property read
    throw; on a string, a number or a list, and on an object without a name,
    the read gives `undefined`, which `join` writes as nothing.
   */
  function IngredientName(e: Json): (r: Option<string>)
    ensures r.None? <==> e.JNull?
    ensures e.JObj? && "name" in e.fields && e.fields["name"].JStr? ==> r == Some(e.fields["name"].s)
    ensures !e.JNull? && !(e.JObj? && "name" in e.fields) ==> r == Some("")
  {
    if e.JNull? then None
    else
      var name := Member(Some(e), "name");
      Some(if name.None? then "" else ElementText(name.value))
  }

  /** `items.map((i) => i.name)`, which throws at the first `null` element. */
  function NamesOf(items: seq<Json>): (r: Option<seq<string>>)
    ensures r.None? <==> exists k :: 0 <= k < |items| && items[k].JNull?
    ensures r.Some? ==> |r.value| == |items| && forall k :: 0 <= k < |items| ==> Some(r.value[k]) == IngredientName(items[k])
  {
    if items == [] then Some([])
    else
      var first := IngredientName(items[0]);
      var rest := NamesOf(items[1..]);
      assert forall k :: 1 <= k < |items| ==> items[k] == items[1..][k - 1];
      if first.None? || rest.None? then None else Some([first.value] + rest.value)
  }

  /** `Array.isArray(recipe.ingredients) ? recipe.ingredients.map((i) => i.name) : []`. */
  function IngredientNames(ingredients: Json): Option<seq<string>> {
    if ingredients.JArr? then NamesOf(ingredients.items) else Some([])
  }

  /** A list of objects each with a string name maps to those names. */
  lemma {:induction false} NamesOfNamed(items: seq<Json>, names: seq<string>)
    requires |items| == |names|
    requires forall k :: 0 <= k < |items| ==> items[k] == JObj(map["name" := JStr(names[k])])
    ensures NamesOf(items) == Some(names)
  {
    if items != [] {
      NamesOfNamed(items[1..], names[1..]);
      assert IngredientName(items[0]) == Some(names[0]);
      assert [names[0]] + names[1..] == names;
    }
  }

  /** The ingredients a recipe form stores export as the names the form read. */
  lemma FormIngredientsExport(raw: string)
    ensures IngredientNames(MenuActions.IngredientsJson(MenuActions.ParseIngredients(raw))) == Some(MenuActions.ParseTags(raw))
  {
    var xs := MenuActions.ParseIngredients(raw);
    NamesOfNamed(MenuActions.IngredientsJson(xs).items, MenuActions.ParseTags(raw));
  }

  // ---------------------------------------------------------------------------
  // The recipe CSV
  // ---------------------------------------------------------------------------

  /** The header line `nome,ingredienti,tag,ruolo,classi`. */
  const RecipeHeader: seq<string> := ["nome", "ingredienti", "tag", "ruolo", "classi"]

  /**
    The five columns of a recipe: its name, its ingredient names, its tags,
    its role (`main` when unset) and its classes, lists joined by `, `.
   */
  function RecipeFields(r: RecipeRow): (f: Option<seq<string>>)
    ensures f.Some? <==> IngredientNames(r.ingredients).Some?
    ensures f.Some? ==> |f.value| == 5 && f.value[0] == r.name
  {
    var names := IngredientNames(r.ingredients);
    if names.None? then None
    else
      Some([r.name, Join(names.value, ", "), Join(r.tags.GetOr([]), ", "),
            RoleName(r.mealRole.GetOr(Main)), Join(ClassNames(r.nutritionalClasses.GetOr([])), ", ")])
  }

  /** The records of every recipe, or `None` when one of them makes the export throw. */
  function RecipeRecords(rows: seq<RecipeRow>): (r: Option<seq<seq<string>>>)
    ensures r.Some? <==> forall i :: 0 <= i < |rows| ==> RecipeFields(rows[i]).Some?
    ensures r.Some? ==> |r.value| == |rows| && forall i :: 0 <= i < |rows| ==> Some(r.value[i]) == RecipeFields(rows[i])
  {
    if rows == [] then Some([])
    else
      var init := RecipeRecords(rows[..|rows| - 1]);
      var last := RecipeFields(rows[|rows| - 1]);
      assert forall i :: 0 <= i < |rows| - 1 ==> rows[..|rows| - 1][i] == rows[i];
      if init.None? || last.None? then None else Some(init.value + [last.value])
  }

  /** The recipe export: the header, then one quoted record per recipe. */
  function RecipeCsv(rows: seq<RecipeRow>): (c: Option<string>)
    ensures c.Some? <==> RecipeRecords(rows).Some?
  {
    var fss := RecipeRecords(rows);
    if fss.None? then None else Some(PlainRecord(RecipeHeader) + Records(fss.value))
  }

  lemma RecipeHeaderPlain()
    ensures RecipeHeader != [] && forall i :: 0 <= i < |RecipeHeader| ==> PlainField(RecipeHeader[i])
  {
    assert PlainField("nome") && PlainField("ingredienti") && PlainField("tag");
    assert PlainField("ruolo") && PlainField("classi");
  }

  /** Five fields written as the template line does, the last two quoted without escaping. */
  lemma FiveFields(a: string, b: string, c: string, d: string, e: string)
    requires '"' !in d && '"' !in e
    ensures Quote(a) + "," + Quote(b) + "," + Quote(c) + "," + ("\"" + d + "\"") + "," + ("\"" + e + "\"") + "\n"
         == QuotedRecord([a, b, c, d, e])
  {
    EscapeNoQuote(d);
    EscapeNoQuote(e);
    assert [a, b, c, d, e][1..] == [b, c, d, e];
    assert [b, c, d, e][1..] == [c, d, e];
    assert [c, d, e][1..] == [d, e];
    assert [d, e][1..] == [e];
    var qa, qb, qc, qd, qe := Quote(a), Quote(b), Quote(c), Quote(d), Quote(e);
    assert QuotedFields([a, b, c, d, e]) == qa + "," + (qb + "," + (qc + "," + (qd + "," + qe))) by {
      assert QuotedFields([d, e]) == qd + "," + qe;
      assert QuotedFields([c, d, e]) == qc + "," + (qd + "," + qe);
      assert QuotedFields([b, c, d, e]) == qb + "," + (qc + "," + (qd + "," + qe));
    }
    CommaChain(qa, qb, qc, qd, qe);
  }

  /** Regrouping a comma-separated chain of five pieces. */
  lemma CommaChain(a: string, b: string, c: string, d: string, e: string)
    ensures a + "," + b + "," + c + "," + d + "," + e == a + "," + (b + "," + (c + "," + (d + "," + e)))
  {
    Regroup(a + "," + b + "," + c + ",", d, "," + e);
    Regroup(a + "," + b + ",", c, "," + (d + "," + e));
    Regroup(a + ",", b, "," + (c + "," + (d + "," + e)));
  }

  /** Role and class names hold no double quote, so leaving them unescaped is harmless. */
  lemma NamesHaveNoQuote(r: RecipeRow)
    ensures '"' !in RoleName(r.mealRole.GetOr(Main))
    ensures '"' !in Join(ClassNames(r.nutritionalClasses.GetOr([])), ", ")
  {
    var ns := ClassNames(r.nutritionalClasses.GetOr([]));
    forall k | 0 <= k < |ns| ensures '"' !in ns[k] {
      var c := r.nutritionalClasses.GetOr([])[k];
      assert ns[k] == ClassName(c);
    }
    JoinAvoids(ns, ", ", '"');
  }

  /**
    The recipe branch of `exportData`: the header, then one line per recipe;
    `None` when a `null` ingredient makes the export throw.
   */
  method ExportRecipes(data: seq<RecipeRow>) returns (csv: Option<string>)
    ensures csv == RecipeCsv(data)
  {
    var content := PlainRecord(RecipeHeader);
    var i := 0;
    assert data[..0] == [];
    while i < |data|
      invariant RecipesWritten(data, i, content)
    {
      var recipe := data[i];
      var ingredientsArr := IngredientNames(recipe.ingredients);
      if ingredientsArr.None? {
        NullStopsExport(data, i);
        return None;
      }
      var line := RecipeText(recipe, ingredientsArr.value);
      RecipeContentStep(data, i, content);
      content := content + line;
      i := i + 1;
    }
    RecipesDone(data, content);
    csv := Some(content);
  }

  /** The loop invariant of the recipe export: the header and the records of the first `i` recipes are written. */
  predicate RecipesWritten(data: seq<RecipeRow>, i: nat, content: string) {
    i <= |data| && RecipeRecords(data[..i]).Some? &&
    content == PlainRecord(RecipeHeader) + Records(RecipeRecords(data[..i]).value)
  }

  lemma RecipesDone(data: seq<RecipeRow>, content: string)
    requires RecipesWritten(data, |data|, content)
    ensures RecipeCsv(data) == Some(content)
  {
    assert data[..|data|] == data;
  }

  /** The template line of one recipe: each column in double quotes, the free-text ones escaped. */
  method RecipeText(recipe: RecipeRow, names: seq<string>) returns (line: string)
    requires IngredientNames(recipe.ingredients) == Some(names)
    ensures line == QuotedRecord(RecipeFields(recipe).value)
  {
    var name := Quote(recipe.name);
    var ingredients := Quote(Join(names, ", "));
    var tags := Quote(Join(recipe.tags.GetOr([]), ", "));
    var role := "\"" + RoleName(recipe.mealRole.GetOr(Main)) + "\"";
    var classes := "\"" + Join(ClassNames(recipe.nutritionalClasses.GetOr([])), ", ") + "\"";
    RecipeLine(recipe);
    line := name + "," + ingredients + "," + tags + "," + role + "," + classes + "\n";
  }

  /** The template line of one recipe is its quoted record. */
  lemma RecipeLine(recipe: RecipeRow)
    requires IngredientNames(recipe.ingredients).Some?
    ensures Quote(recipe.name) + "," + Quote(Join(IngredientNames(recipe.ingredients).value, ", ")) + "," +
      Quote(Join(recipe.tags.GetOr([]), ", ")) + "," + ("\"" + RoleName(recipe.mealRole.GetOr(Main)) + "\"") + "," +
      ("\"" + Join(ClassNames(recipe.nutritionalClasses.GetOr([])), ", ") + "\"") + "\n"
      == QuotedRecord(RecipeFields(recipe).value)
  {
    var fields := RecipeFields(recipe).value;
    NamesHaveNoQuote(recipe);
    FiveFields(fields[0], fields[1], fields[2], fields[3], fields[4]);
    assert [fields[0], fields[1], fields[2], fields[3], fields[4]] == fields;
  }

  lemma NullStopsExport(data: seq<RecipeRow>, i: nat)
    requires i < |data| && IngredientNames(data[i].ingredients).None?
    ensures RecipeCsv(data) == None
  {
    assert RecipeFields(data[i]).None?;
  }

  lemma RecipeContentStep(data: seq<RecipeRow>, i: nat, content: string)
    requires i < |data| && RecipesWritten(data, i, content) && RecipeFields(data[i]).Some?
    ensures RecipesWritten(data, i + 1, content + QuotedRecord(RecipeFields(data[i]).value))
  {
    RecipeRecordsStep(data, i);
    Regroup(PlainRecord(RecipeHeader), Records(RecipeRecords(data[..i]).value), QuotedRecord(RecipeFields(data[i]).value));
  }

  lemma RecipeRecordsStep(data: seq<RecipeRow>, i: nat)
    requires i < |data|
    requires RecipeRecords(data[..i]).Some? && RecipeFields(data[i]).Some?
    ensures RecipeRecords(data[..i + 1]).Some?
    ensures Records(RecipeRecords(data[..i + 1]).value) ==
      Records(RecipeRecords(data[..i]).value) + QuotedRecord(RecipeFields(data[i]).value)
  {
    var before := RecipeRecords(data[..i]).value;
    var fields := RecipeFields(data[i]).value;
    assert data[..i + 1][..i] == data[..i];
    assert RecipeRecords(data[..i + 1]) == Some(before + [fields]);
    RecordsSnoc(before, fields);
  }

  /**
    Read back with the rules of section 2 of RFC 4180, the recipe export is
    its header and then each recipe's five fields, whatever the names, tags
    and ingredient names contain.
   */
  lemma RecipeCsvReadsBack(rows: seq<RecipeRow>)
    requires RecipeCsv(rows).Some?
    ensures ReadRecords(RecipeCsv(rows).value) == Some([RecipeHeader] + RecipeRecords(rows).value)
  {
    RecipeHeaderPlain();
    ReadTable(RecipeHeader, RecipeRecords(rows).value);
  }

  /** The recipe export fails exactly when some recipe's ingredient list holds a `null`. */
  lemma RecipeCsvFailsIff(rows: seq<RecipeRow>)
    ensures RecipeCsv(rows).None? <==>
      exists i, k :: 0 <= i < |rows| && rows[i].ingredients.JArr? && 0 <= k < |rows[i].ingredients.items| &&
        rows[i].ingredients.items[k].JNull?
  {
  }

  /**
    The columns a recipe exports to: a missing role is written `main`, a set
    role reads back as itself, and missing tags, a non-list ingredient column
    and missing classes are written as empty fields.
   */
  lemma RecipeColumns(r: RecipeRow)
    requires RecipeFields(r).Some?
    ensures r.mealRole.None? ==> RecipeFields(r).value[3] == "main"
    ensures r.mealRole.Some? ==> ParseRole(RecipeFields(r).value[3]) == r.mealRole
    ensures r.tags.None? ==> RecipeFields(r).value[2] == ""
    ensures !r.ingredients.JArr? ==> RecipeFields(r).value[1] == ""
    ensures r.nutritionalClasses.None? ==> RecipeFields(r).value[4] == ""
  {
    if r.mealRole.Some? {
      EnumNamesRoundTrip(Veg, r.mealRole.value, User, Lunedi);
    }
  }

  /** A recipe saved from the form exports an ingredient column that the form's parser reads back as the same names. */
  lemma FormRecipeRoundTrip(r: RecipeRow, raw: string)
    requires r.ingredients == MenuActions.IngredientsJson(MenuActions.ParseIngredients(raw))
    ensures RecipeFields(r).Some?
    ensures MenuActions.ParseTags(RecipeFields(r).value[1]) == MenuActions.ParseTags(raw)
  {
    var names := MenuActions.ParseTags(raw);
    FormIngredientsExport(raw);
    assert RecipeFields(r).value[1] == Join(names, ", ");
    assert names != [] && forall i :: 0 <= i < |names| ==> MenuActions.IsTrimmed(names[i]) && ',' !in names[i] by {
      MenuActions.IngredientCount(raw);
      MenuActions.ParsedNamesClean(raw);
    }
    MenuActions.TagsRoundTrip(names);
  }

  // ---------------------------------------------------------------------------
  // The pantry CSV
  // ---------------------------------------------------------------------------

  /** The header line `nome,quantità,categoria`. */
  const PantryHeader: seq<string> := ["nome", "quantit\U{E0}", "categoria"]

  /** The three columns of a pantry item; a missing quantity or category is written empty. */
  function PantryFields(item: PantryRow): (f: seq<string>)
    ensures |f| == 3 && f[0] == item.name
    ensures item.quantity.Some? ==> f[1] == item.quantity.value
    ensures item.quantity.None? ==> f[1] == ""
    ensures item.category.Some? ==> f[2] == item.category.value
    ensures item.category.None? ==> f[2] == ""
  {
    [item.name, item.quantity.GetOr(""), item.category.GetOr("")]
  }

  function PantryRecords(items: seq<PantryRow>): (r: seq<seq<string>>)
    ensures |r| == |items| && forall i :: 0 <= i < |items| ==> r[i] == PantryFields(items[i])
  {
    seq(|items|, i requires 0 <= i < |items| => PantryFields(items[i]))
  }

  function PantryCsv(items: seq<PantryRow>): string {
    PlainRecord(PantryHeader) + Records(PantryRecords(items))
  }

  lemma ThreeFields(a: string, b: string, c: string)
    ensures Quote(a) + "," + Quote(b) + "," + Quote(c) + "\n" == QuotedRecord([a, b, c])
  {
    assert [a, b, c][1..] == [b, c];
    assert [b, c][1..] == [c];
    var qa, qb, qc := Quote(a), Quote(b), Quote(c);
    assert QuotedFields([a, b, c]) == qa + "," + (qb + "," + qc) by {
      assert QuotedFields([b, c]) == qb + "," + qc;
    }
    Regroup(qa + ",", qb, "," + qc);
  }

  /** The pantry branch of `exportData`: the header, then one line per item. */
  method ExportPantry(data: seq<PantryRow>) returns (csv: string)
    ensures csv == PantryCsv(data)
  {
    csv := PlainRecord(PantryHeader);
    var i := 0;
    while i < |data|
      invariant 0 <= i <= |data|
      invariant csv == PlainRecord(PantryHeader) + Records(PantryRecords(data[..i]))
    {
      var item := data[i];
      var name := Quote(item.name);
      var quantity := Quote(item.quantity.GetOr(""));
      var category := Quote(item.category.GetOr(""));
      ThreeFields(item.name, item.quantity.GetOr(""), item.category.GetOr(""));
      PantryRecordsStep(data, i);
      Regroup(PlainRecord(PantryHeader), Records(PantryRecords(data[..i])), QuotedRecord(PantryFields(item)));
      csv := csv + (name + "," + quantity + "," + category + "\n");
      i := i + 1;
    }
    assert data[..i] == data;
  }

  lemma PantryRecordsStep(data: seq<PantryRow>, i: nat)
    requires i < |data|
    ensures Records(PantryRecords(data[..i + 1])) == Records(PantryRecords(data[..i])) + QuotedRecord(PantryFields(data[i]))
  {
    assert PantryRecords(data[..i + 1]) == PantryRecords(data[..i]) + [PantryFields(data[i])];
    RecordsSnoc(PantryRecords(data[..i]), PantryFields(data[i]));
  }

  /** Read back with the rules of section 2 of RFC 4180, the pantry export is its header and then each item's three fields. */
  lemma PantryCsvReadsBack(items: seq<PantryRow>)
    ensures ReadRecords(PantryCsv(items)) == Some([PantryHeader] + PantryRecords(items))
  {
    assert PlainField("nome") && PlainField("quantit\U{E0}") && PlainField("categoria");
    ReadTable(PantryHeader, PantryRecords(items));
  }

  // ---------------------------------------------------------------------------
  // The weekly plan as Markdown
  // ---------------------------------------------------------------------------

  /** `- ${r.name} (${r.meal_role})`. */
  function RecipeEntry(r: MealRecipeItem): string {
    "- " + r.name + " (" + RoleName(r.mealRole) + ")"
  }

  function RecipeEntries(rs: seq<MealRecipeItem>): (ls: seq<string>)
    ensures |ls| == |rs| && forall k :: 0 <= k < |rs| ==> ls[k] == RecipeEntry(rs[k])
  {
    seq(|rs|, k requires 0 <= k < |rs| => RecipeEntry(rs[k]))
  }

  /** The pantry note of a day: a blank line and the merged pantry list, when there is one. */
  function PantryNote(day: DayMenu): seq<string> {
    var items := DayCard.ShownIngredients(day);
    if |items| > 0 then ["", "*Dalla dispensa: " + Join(items, ", ") + "*"] else []
  }

  /** A day: its heading, the lunch and dinner recipes, the pantry note and a blank line. */
  function DaySection(day: DayMenu): seq<string> {
    ["## " + DayName(day.day), "### Pranzo"] + RecipeEntries(day.lunch.recipes) + ["### Cena"] +
      RecipeEntries(day.dinner.recipes) + PantryNote(day) + [""]
  }

  function DaySections(days: seq<DayMenu>): seq<string> {
    if days == [] then [] else DaySections(days[..|days| - 1]) + DaySection(days[|days| - 1])
  }

  /** `- [ ] ${item.item} (${item.quantity})`. */
  function ShoppingEntry(s: ShoppingItem): string {
    "- [ ] " + s.item + " (" + s.quantity + ")"
  }

  function ShoppingEntries(ss: seq<ShoppingItem>): (ls: seq<string>)
    ensures |ls| == |ss| && forall k :: 0 <= k < |ss| ==> ls[k] == ShoppingEntry(ss[k])
  {
    seq(|ss|, k requires 0 <= k < |ss| => ShoppingEntry(ss[k]))
  }

  /** The closing rule and note, only when the note is not empty. */
  function SummaryLines(note: string): seq<string> {
    if note != "" then ["", "---", note] else []
  }

  /** The lines of the document. */
  function PlanLines(p: WeeklyPlan): seq<string> {
    ["# Piano Settimanale", ""] + DaySections(p.weeklyMenu) + ["## Lista della Spesa"] +
      ShoppingEntries(p.shoppingList) + SummaryLines(p.summaryNote)
  }

  /** Each line followed by a line feed. */
  function Unlines(ls: seq<string>): string {
    if ls == [] then "" else Unlines(ls[..|ls| - 1]) + ls[|ls| - 1] + "\n"
  }

  /** The document for the first plan given; nothing when there is none. */
  function PlanMarkdown(data: seq<WeeklyPlan>): (md: Option<string>)
    ensures md.Some? <==> data != []
  {
    if data == [] then None else Some(Unlines(PlanLines(data[0])))
  }

  lemma UnlinesSnoc(ls: seq<string>, l: string)
    ensures Unlines(ls + [l]) == Unlines(ls) + l + "\n"
  {
    assert (ls + [l])[..|ls|] == ls;
  }

  lemma {:induction false} UnlinesConcat(a: seq<string>, b: seq<string>)
    ensures Unlines(a + b) == Unlines(a) + Unlines(b)
    decreases |b|
  {
    if b == [] {
      assert a + b == a;
    } else {
      var init := b[..|b| - 1];
      assert a + b == (a + init) + [b[|b| - 1]];
      UnlinesSnoc(a + init, b[|b| - 1]);
      UnlinesConcat(a, init);
      UnlinesSnoc(init, b[|b| - 1]);
      assert init + [b[|b| - 1]] == b;
    }
  }

  lemma Regroup4(x: string, y: string, z: string, w: string)
    ensures x + y + z + w == x + (y + z + w)
  {
  }

  lemma RecipesStep(rs: seq<MealRecipeItem>, i: nat)
    requires i < |rs|
    ensures Unlines(RecipeEntries(rs[..i + 1])) == Unlines(RecipeEntries(rs[..i])) + RecipeEntry(rs[i]) + "\n"
  {
    assert RecipeEntries(rs[..i + 1]) == RecipeEntries(rs[..i]) + [RecipeEntry(rs[i])];
    UnlinesSnoc(RecipeEntries(rs[..i]), RecipeEntry(rs[i]));
  }

  /** `forEach` over recipes, appending a `- name (role)` line for each. */
  method AppendRecipes(content: string, rs: seq<MealRecipeItem>) returns (out: string)
    ensures out == content + Unlines(RecipeEntries(rs))
  {
    out := content;
    var i := 0;
    while i < |rs|
      invariant 0 <= i <= |rs|
      invariant out == content + Unlines(RecipeEntries(rs[..i]))
    {
      RecipesStep(rs, i);
      Regroup4(content, Unlines(RecipeEntries(rs[..i])), RecipeEntry(rs[i]), "\n");
      out := out + RecipeEntry(rs[i]) + "\n";
      i := i + 1;
    }
    assert rs[..i] == rs;
  }

  lemma ShoppingStep(ss: seq<ShoppingItem>, i: nat)
    requires i < |ss|
    ensures Unlines(ShoppingEntries(ss[..i + 1])) == Unlines(ShoppingEntries(ss[..i])) + ShoppingEntry(ss[i]) + "\n"
  {
    assert ShoppingEntries(ss[..i + 1]) == ShoppingEntries(ss[..i]) + [ShoppingEntry(ss[i])];
    UnlinesSnoc(ShoppingEntries(ss[..i]), ShoppingEntry(ss[i]));
  }

  /** `forEach` over the shopping list, appending a `- [ ] item (quantity)` line for each. */
  method AppendShopping(content: string, ss: seq<ShoppingItem>) returns (out: string)
    ensures out == content + Unlines(ShoppingEntries(ss))
  {
    out := content;
    var i := 0;
    while i < |ss|
      invariant 0 <= i <= |ss|
      invariant out == content + Unlines(ShoppingEntries(ss[..i]))
    {
      ShoppingStep(ss, i);
      Regroup4(content, Unlines(ShoppingEntries(ss[..i])), ShoppingEntry(ss[i]), "\n");
      out := out + ShoppingEntry(ss[i]) + "\n";
      i := i + 1;
    }
    assert ss[..i] == ss;
  }

  /** The text of one day's section, piece by piece as the exporter appends it. */
  lemma DaySectionText(day: DayMenu)
    ensures Unlines(DaySection(day)) ==
      ("## " + DayName(day.day) + "\n") + "### Pranzo\n" + Unlines(RecipeEntries(day.lunch.recipes)) + "### Cena\n" +
      Unlines(RecipeEntries(day.dinner.recipes)) + Unlines(PantryNote(day)) + "\n"
  {
    var head := ["## " + DayName(day.day), "### Pranzo"];
    UnlinesSix(head, RecipeEntries(day.lunch.recipes), ["### Cena"], RecipeEntries(day.dinner.recipes), PantryNote(day), [""]);
    HeadLines(DayName(day.day));
    CenaLine();
    BlankLine();
  }

  lemma HeadLines(name: string)
    ensures Unlines(["## " + name, "### Pranzo"]) == ("## " + name + "\n") + "### Pranzo\n"
  {
    UnlinesTwo("## " + name, "### Pranzo");
  }

  lemma CenaLine()
    ensures Unlines(["### Cena"]) == "### Cena\n"
  {
    UnlinesOne("### Cena");
  }

  lemma BlankLine()
    ensures Unlines([""]) == "\n"
  {
    UnlinesOne("");
  }

  lemma UnlinesSix(a: seq<string>, b: seq<string>, c: seq<string>, d: seq<string>, e: seq<string>, f: seq<string>)
    ensures Unlines(a + b + c + d + e + f) == Unlines(a) + Unlines(b) + Unlines(c) + Unlines(d) + Unlines(e) + Unlines(f)
  {
    UnlinesConcat(a + b + c + d + e, f);
    UnlinesConcat(a + b + c + d, e);
    UnlinesConcat(a + b + c, d);
    UnlinesConcat(a + b, c);
    UnlinesConcat(a, b);
  }

  lemma UnlinesOne(l: string)
    ensures Unlines([l]) == l + "\n"
  {
    UnlinesSnoc([], l);
  }

  lemma UnlinesTwo(l: string, m: string)
    ensures Unlines([l, m]) == l + "\n" + m + "\n"
  {
    UnlinesSnoc([], l);
    assert [l] + [m] == [l, m];
    UnlinesSnoc([l], m);
  }

  lemma PantryNoteText(day: DayMenu)
    ensures |DayCard.ShownIngredients(day)| > 0 ==>
      Unlines(PantryNote(day)) == "\n*Dalla dispensa: " + Join(DayCard.ShownIngredients(day), ", ") + "*\n"
    ensures |DayCard.ShownIngredients(day)| == 0 ==> Unlines(PantryNote(day)) == ""
  {
    var items := DayCard.ShownIngredients(day);
    if |items| > 0 {
      var j := Join(items, ", ");
      UnlinesAfterBlank("*Dalla dispensa: " + j + "*");
      NoteLiteral(j);
    }
  }

  lemma UnlinesAfterBlank(m: string)
    ensures Unlines(["", m]) == "\n" + m + "\n"
  {
    UnlinesSnoc([], "");
    assert [""] + [m] == ["", m];
    UnlinesSnoc([""], m);
  }

  lemma NoteLiteral(j: string)
    ensures "\n" + ("*Dalla dispensa: " + j + "*") + "\n" == "\n*Dalla dispensa: " + j + "*\n"
  {
  }

  /** The `forEach` callback for one day: its heading, both meals, the pantry note and a blank line. */
  method AppendDay(content: string, day: DayMenu) returns (out: string)
    ensures out == content + Unlines(DaySection(day))
  {
    ghost var acc := "## " + DayName(day.day) + "\n";
    out := content + ("## " + DayName(day.day) + "\n");
    Regroup(content, acc, "### Pranzo\n");
    out, acc := out + "### Pranzo\n", acc + "### Pranzo\n";
    ghost var lunch := Unlines(RecipeEntries(day.lunch.recipes));
    Regroup(content, acc, lunch);
    out := AppendRecipes(out, day.lunch.recipes);
    acc := acc + lunch;
    Regroup(content, acc, "### Cena\n");
    out, acc := out + "### Cena\n", acc + "### Cena\n";
    ghost var dinner := Unlines(RecipeEntries(day.dinner.recipes));
    Regroup(content, acc, dinner);
    out := AppendRecipes(out, day.dinner.recipes);
    acc := acc + dinner;
    var pantryItems := DayCard.ShownIngredients(day);
    PantryNoteText(day);
    ghost var note := Unlines(PantryNote(day));
    if |pantryItems| > 0 {
      Regroup(content, acc, note);
      out := out + ("\n*Dalla dispensa: " + Join(pantryItems, ", ") + "*\n");
    } else {
      assert acc + note == acc;
    }
    acc := acc + note;
    Regroup(content, acc, "\n");
    out, acc := out + "\n", acc + "\n";
    DaySectionText(day);
  }

  lemma DaysStep(top: seq<string>, days: seq<DayMenu>, i: nat)
    requires i < |days|
    ensures Unlines(top + DaySections(days[..i + 1])) == Unlines(top + DaySections(days[..i])) + Unlines(DaySection(days[i]))
  {
    assert days[..i + 1][..i] == days[..i];
    assert top + DaySections(days[..i + 1]) == (top + DaySections(days[..i])) + DaySection(days[i]);
    UnlinesConcat(top + DaySections(days[..i]), DaySection(days[i]));
  }

  lemma SummaryText(note: string)
    ensures note != "" ==> Unlines(SummaryLines(note)) == "\n---\n" + note + "\n"
    ensures note == "" ==> Unlines(SummaryLines(note)) == ""
  {
    if note != "" {
      UnlinesSnoc([], "");
      UnlinesSnoc([""], "---");
      assert [""] + ["---"] == ["", "---"];
      UnlinesSnoc(["", "---"], note);
      assert ["", "---"] + [note] == SummaryLines(note);
    }
  }

  lemma TitleText()
    ensures Unlines(["# Piano Settimanale", ""]) == "# Piano Settimanale\n\n"
  {
    UnlinesSnoc([], "# Piano Settimanale");
    assert [] + ["# Piano Settimanale"] == ["# Piano Settimanale"];
    UnlinesSnoc(["# Piano Settimanale"], "");
    assert ["# Piano Settimanale"] + [""] == ["# Piano Settimanale", ""];
    assert "" + "# Piano Settimanale" + "\n" + "" + "\n" == "# Piano Settimanale\n\n";
  }

  lemma ShoppingHeadText(lines: seq<string>)
    ensures Unlines(lines + ["## Lista della Spesa"]) == Unlines(lines) + "## Lista della Spesa\n"
  {
    UnlinesSnoc(lines, "## Lista della Spesa");
    assert "## Lista della Spesa" + "\n" == "## Lista della Spesa\n";
    Regroup(Unlines(lines), "## Lista della Spesa", "\n");
  }

  /** The weekly-plan branch of `exportData`. */
  method ExportPlan(data: seq<WeeklyPlan>) returns (md: Option<string>)
    ensures md == PlanMarkdown(data)
  {
    if data == [] {
      return None;
    }
    var plan := data[0];
    ghost var top := ["# Piano Settimanale", ""];
    var content := "# Piano Settimanale\n\n";
    TitleText();
    var days := plan.weeklyMenu;
    var i := 0;
    while i < |days|
      invariant 0 <= i <= |days|
      invariant content == Unlines(top + DaySections(days[..i]))
    {
      DaysStep(top, days, i);
      content := AppendDay(content, days[i]);
      i := i + 1;
    }
    assert days[..i] == days;
    ghost var lines := top + DaySections(days);
    ShoppingHeadText(lines);
    content := content + "## Lista della Spesa\n";
    lines := lines + ["## Lista della Spesa"];
    UnlinesConcat(lines, ShoppingEntries(plan.shoppingList));
    content := AppendShopping(content, plan.shoppingList);
    lines := lines + ShoppingEntries(plan.shoppingList);
    assert content == Unlines(lines);
    SummaryText(plan.summaryNote);
    UnlinesConcat(lines, SummaryLines(plan.summaryNote));
    if plan.summaryNote != "" {
      content := content + ("\n---\n" + plan.summaryNote + "\n");
    }
    assert content == Unlines(lines + SummaryLines(plan.summaryNote));
    assert lines + SummaryLines(plan.summaryNote) == PlanLines(plan);
    md := Some(content);
  }

  /** No line of the document holds a line feed of its own. */
  predicate SingleLines(ls: seq<string>) {
    forall k :: 0 <= k < |ls| ==> '\n' !in ls[k]
  }

  lemma {:induction false} UnlinesIsJoin(ls: seq<string>)
    requires ls != []
    ensures Unlines(ls) == Join(ls, "\n") + "\n"
  {
    if |ls| > 1 {
      var init := ls[..|ls| - 1];
      UnlinesIsJoin(init);
      assert init + [ls[|ls| - 1]] == ls;
      JoinSnoc(init, ls[|ls| - 1], "\n");
    }
  }

  /**
    Splitting the document at its line feeds gives back its lines, and an
    empty piece after the final line feed, as long as the names, days,
    quantities and note hold no line feed.
   */
  lemma MarkdownReadsBack(p: WeeklyPlan)
    requires SingleLines(PlanLines(p))
    ensures Split(PlanMarkdown([p]).value, '\n') == PlanLines(p) + [""]
  {
    var ls := PlanLines(p);
    UnlinesIsJoin(ls);
    JoinSnoc(ls, "", "\n");
    assert Join(ls, "\n") + "\n" == Join(ls + [""], "\n");
    JoinSplit(ls + [""], '\n');
  }

  /** A day heading line. */
  predicate IsDayHeading(l: string) {
    |l| >= 3 && l[..3] == "## "
  }

  function Heading(): string -> bool {
    (l: string) => IsDayHeading(l)
  }

  /** The heading of each day, in the plan's order. */
  function DayHeadings(days: seq<DayMenu>): (hs: seq<string>)
    ensures |hs| == |days| && forall k :: 0 <= k < |days| ==> hs[k] == "## " + DayName(days[k].day)
  {
    seq(|days|, k requires 0 <= k < |days| => "## " + DayName(days[k].day))
  }

  lemma EntriesStartWithDash(rs: seq<MealRecipeItem>)
    ensures forall l :: l in RecipeEntries(rs) ==> !IsDayHeading(l)
  {
    var ls := RecipeEntries(rs);
    forall l | l in ls ensures !IsDayHeading(l) {
      var k :| 0 <= k < |ls| && ls[k] == l;
      assert l[0] == '-';
      if |l| >= 3 {
        assert l[..3][0] == '-';
      }
    }
  }

  /** Within a day's section the only heading line is the day's own. */
  lemma SectionHeading(day: DayMenu)
    ensures Filter(DaySection(day), Heading()) == ["## " + DayName(day.day)]
  {
    var h := "## " + DayName(day.day);
    var lunch := RecipeEntries(day.lunch.recipes);
    var dinner := RecipeEntries(day.dinner.recipes);
    var note := PantryNote(day);
    FilterSix([h, "### Pranzo"], lunch, ["### Cena"], dinner, note, [""], Heading());
    SubheadingsAreNotDays();
    HeadAndLunch(h);
    EntriesStartWithDash(day.lunch.recipes);
    FilterNone(lunch, Heading());
    FilterNone(["### Cena"], Heading());
    EntriesStartWithDash(day.dinner.recipes);
    FilterNone(dinner, Heading());
    NoteIsNotHeading(day);
    FilterNone(note, Heading());
    FilterNone([""], Heading());
    EmptySuffixes([h]);
  }

  lemma HeadAndLunch(h: string)
    requires IsDayHeading(h)
    ensures Filter([h, "### Pranzo"], Heading()) == [h]
  {
    SubheadingsAreNotDays();
    assert [h, "### Pranzo"][1..] == ["### Pranzo"];
  }

  lemma SubheadingsAreNotDays()
    ensures !IsDayHeading("### Pranzo") && !IsDayHeading("### Cena") && !IsDayHeading("")
  {
    assert "### Pranzo"[..3][2] == '#';
    assert "### Cena"[..3][2] == '#';
  }

  lemma NoteIsNotHeading(day: DayMenu)
    ensures forall l :: l in PantryNote(day) ==> !IsDayHeading(l)
  {
    var note := PantryNote(day);
    if note != [] {
      assert note[1][..3][0] == '*';
    }
  }

  /** The days part of the document has exactly one heading per day, in the plan's order. */
  lemma {:induction false} OneHeadingPerDay(days: seq<DayMenu>)
    ensures Filter(DaySections(days), Heading()) == DayHeadings(days)
  {
    if days != [] {
      var init := days[..|days| - 1];
      OneHeadingPerDay(init);
      SectionHeading(days[|days| - 1]);
      FilterConcat(DaySections(init), DaySection(days[|days| - 1]), Heading());
      assert DayHeadings(days) == DayHeadings(init) + ["## " + DayName(days[|days| - 1].day)];
    }
  }

  /**
    A day's section shows the pantry note exactly when its card shows the
    pantry line, and both list the same merged ingredients.
   */
  lemma PantryNoteMatchesCard(day: DayMenu)
    ensures PantryNote(day) != [] <==> DayCard.ShowsLine(day)
    ensures DayCard.ShowsLine(day) ==>
      PantryNote(day)[1] == "*Dalla dispensa: " + DayCard.PantryLine(day).value[5..] + "*"
  {
    DayCard.ShowsLineIff(day);
    if DayCard.ShowsLine(day) {
      var line := DayCard.PantryLine(day).value;
      assert line[5..] == Join(DayCard.ShownIngredients(day), ", ");
    }
  }

  /** The summary appears last, after a rule, exactly when the note is not empty; otherwise the shopping list ends the document. */
  lemma SummaryOnlyWhenNoted(p: WeeklyPlan)
    ensures p.summaryNote != "" ==>
      PlanLines(p)[|PlanLines(p)| - 1] == p.summaryNote && PlanLines(p)[|PlanLines(p)| - 2] == "---"
    ensures p.summaryNote == "" ==>
      PlanLines(p) == ["# Piano Settimanale", ""] + DaySections(p.weeklyMenu) + ["## Lista della Spesa"] + ShoppingEntries(p.shoppingList)
  {
  }

  // ---------------------------------------------------------------------------
  // The button
  // ---------------------------------------------------------------------------

  /** What the button exports, by its `type`. */
  datatype ExportData =
    | RecipeList(recipes: seq<RecipeRow>)
    | PantryList(items: seq<PantryRow>)
    | PlanDocument(plans: seq<WeeklyPlan>)
    | PlanHistory(history: seq<Json>)

  /** The file the browser downloads. */
  datatype Download = Download(name: string, content: string)

  /**
    `exportData`: the download for each kind of data, or nothing when there is
    no plan or the export throws. The JSON serialiser is a parameter.
   */
  function ExportFile(data: ExportData, filename: string, stringify: Json -> string): (d: Option<Download>)
    ensures data.PlanHistory? ==> d == Some(Download(WithExtension(filename, ".json"), stringify(JArr(data.history))))
    ensures data.PantryList? ==> d == Some(Download(filename, PantryCsv(data.items)))
  {
    match data
    case PlanHistory(history) => Some(Download(WithExtension(filename, ".json"), stringify(JArr(history))))
    case PlanDocument(plans) =>
      var md := PlanMarkdown(plans);
      if md.None? then None else Some(Download(WithExtension(filename, ".md"), md.value))
    case RecipeList(recipes) =>
      var csv := RecipeCsv(recipes);
      if csv.None? then None else Some(Download(filename, csv.value))
    case PantryList(items) => Some(Download(filename, PantryCsv(items)))
  }

  /** The click handler, running the exporter of the data's kind. */
  method Export(data: ExportData, filename: string, stringify: Json -> string) returns (file: Option<Download>)
    ensures file == ExportFile(data, filename, stringify)
  {
    match data
    case PlanHistory(history) =>
      file := Some(Download(WithExtension(filename, ".json"), stringify(JArr(history))));
    case PlanDocument(plans) =>
      var md := ExportPlan(plans);
      file := if md.None? then None else Some(Download(WithExtension(filename, ".md"), md.value));
    case RecipeList(recipes) =>
      var csv := ExportRecipes(recipes);
      file := if csv.None? then None else Some(Download(filename, csv.value));
    case PantryList(items) =>
      var csv := ExportPantry(items);
      file := Some(Download(filename, csv));
  }

  /**
    The downloaded name: the CSV exports keep the given name, the plan gets
    `.md` and the history `.json` unless the name already ends with it.
   */
  lemma DownloadNames(data: ExportData, filename: string, stringify: Json -> string)
    requires ExportFile(data, filename, stringify).Some?
    ensures data.RecipeList? || data.PantryList? ==> ExportFile(data, filename, stringify).value.name == filename
    ensures data.PlanDocument? ==> EndsWith(ExportFile(data, filename, stringify).value.name, ".md")
    ensures data.PlanHistory? ==> EndsWith(ExportFile(data, filename, stringify).value.name, ".json")
  {
  }

  /** Nothing is downloaded exactly when there is no plan to write or a recipe's ingredients hold a `null`. */
  lemma NoDownloadIff(data: ExportData, filename: string, stringify: Json -> string)
    ensures ExportFile(data, filename, stringify).None? <==>
      (data.PlanDocument? && data.plans == []) || (data.RecipeList? && RecipeCsv(data.recipes).None?)
  {
  }

  /** `label || (type === 'weekly-plan' ? "Esporta Piano" : "Esporta CSV")`. */
  function ButtonLabel(given: Option<string>, data: ExportData): (text: string)
    ensures text != ""
    ensures given.Some? && given.value != "" ==> text == given.value
    ensures (given.None? || given.value == "") ==> (text == "Esporta Piano" <==> data.PlanDocument?)
  {
    if given.Some? && given.value != "" then given.value
    else if data.PlanDocument? then "Esporta Piano" else "Esporta CSV"
  }
}
