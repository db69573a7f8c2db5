# Menu planner: the deterministic rules, modelled in Dafny

This project models the small deterministic rules of a household meal-planning
application. The application tracks pantry items and a recipe catalogue, asks
a language model for a weekly lunch/dinner menu, and shows, edits and exports
that menu. The model pulls each rule out of the screens that hold it:

- the recipe-name identity key and the nutritional-coverage rule
  (`lib/planner-utils.ts`);
- the weekly-plan schema: enumerations, records, their refinements and a
  parser that behaves as the zod schema does (`types/weekly-plan.ts`);
- the meal card's covered classes, missing classes and main-dishes-first
  order (`components/MealDisplay.tsx`);
- the meal editor's eating-out toggle and recipe removal
  (`components/MealEditor.tsx`);
- the dashboard's tag toggle and its recipe and pantry filters
  (`components/DashboardClient.tsx`);
- the recipe picker's filter and the plan item it builds
  (`components/RecipePickerDialog.tsx`);
- the exports: recipe CSV, pantry CSV, weekly-plan Markdown, history JSON,
  file names (`components/ExportButton.tsx`);
- the day card's merged pantry list (`components/DayCard.tsx`);
- the history page's current-shape test (`components/HistoryClient.tsx`);
- the prompt context strings and the new-recipe form's comma lists
  (`app/actions/menu-actions.ts`).

One module per source file. The helper modules are `Wrappers` (optional
values), `JsonValues` (JSON values and JavaScript truthiness), `Text`
(JavaScript string operations), `Seqs` (`filter`, subsequences,
`[...new Set(...)]`), `StoreRows` (database rows) and `Csv` (the quoting of
section 2 of RFC 4180 and a reader that undoes it).

The code has no repair engine, no frequency caps and no recipe-identity
resolution. The generation action stores the model's output unchanged
(`app/actions/menu-actions.ts:45-55`). The schema sets no number or order of
days, so a plan may hold any number of days in any order.

The day card and the Markdown export read `ingredients_used_from_pantry`
from each meal (`day.lunch`, `day.dinner`). The schema declares that key on
the day and not on the meal, so a meal parsed by the schema never has it. The
meal datatype carries it as the optional `pantryUsed`. `DayCard.ParsedDayShowsNoLine`
and `WeeklyPlan.ParsedMealsHaveNoPantryList` state the consequence: a plan
that comes through the schema never shows the pantry line.

## Model

| member | source | states |
|---|---|---|
| `PlannerUtils.NormalizeIsJoinedWords` | lib/planner-utils.ts:12-14 | the key is the lower-cased name's words (maximal runs of non-white-space) joined by one space |
| `PlannerUtils.NormalizeShape` | lib/planner-utils.ts:13 | the key has no leading or trailing white space, its only white space is single `' '` characters never two in a row, and it has no upper-case letter |
| `PlannerUtils.NormalizeIdempotent` | lib/planner-utils.ts:12-14 | normalising a key again leaves it unchanged |
| `PlannerUtils.SameKeyIff` | lib/planner-utils.ts:8-14 | two names share a key if and only if their lower-cased word lists are equal |
| `PlannerUtils.SpacingDoesNotMatter` | lib/planner-utils.ts:13 | replacing one inner white-space run by another of any length keeps the key |
| `PlannerUtils.CaseDoesNotMatter` | lib/planner-utils.ts:8-14 | names that differ only in letter case share a key |
| `PlannerUtils.CheckCoverage` | lib/planner-utils.ts:19-30 | a class is missing if and only if it is required and absent from the input; the missing list keeps the order veg, carbs, protein; complete if and only if nothing is missing |
| `PlannerUtils.CoverageOfNothing` | lib/planner-utils.ts:19-30 | an empty class list misses veg, carbs and protein, in that order, and is not complete |
| `PlannerUtils.CoverageOfAll` | lib/planner-utils.ts:19-30 | any list holding all three classes, with repeats or extras, is complete with nothing missing |
| `PlannerUtils.CoverageDependsOnSetOnly` | lib/planner-utils.ts:23-25 | two lists holding the same classes, in any order and multiplicity, get the same verdict |
| `Text.Trim` | lib/planner-utils.ts:13 | `trim` returns the slice between a white-space prefix and a white-space suffix, and the slice neither starts nor ends with white space |
| `Text.ContainsIff` | components/DashboardClient.tsx:37 | `includes` holds if and only if the needle occurs at some position of the haystack |
| `Text.SplitJoin` | app/actions/menu-actions.ts:90 | joining the pieces of a split with the separator gives back the text |
| `Text.SplitPieces` | app/actions/menu-actions.ts:90-91 | a split yields one more piece than there are separators, and no piece holds a separator |
| `Text.JoinSplit` | app/actions/menu-actions.ts:16 | splitting a join recovers the pieces when none of them holds the separator |
| `WeeklyPlan.ParseClass` | types/weekly-plan.ts:3 | a class parses if and only if it is `veg`, `carbs` or `protein`, and then names the value parsed |
| `WeeklyPlan.ParseRole` | types/weekly-plan.ts:6 | a role parses if and only if it is `main` or `side` |
| `WeeklyPlan.ParseSource` | types/weekly-plan.ts:9 | a source parses if and only if it is `user` or `ai` |
| `WeeklyPlan.ParseDay` | types/weekly-plan.ts:39 | a day label parses to exactly the weekday among the seven Italian labels that it names |
| `WeeklyPlan.EnumNamesRoundTrip` | types/weekly-plan.ts:3-10 | every class, role, source and weekday parses back from its name |
| `WeeklyPlan.ParseAll` | types/weekly-plan.ts:26 | a JSON list parses if and only if every element parses, and then element by element |
| `WeeklyPlan.ParseClasses` | types/weekly-plan.ts:16 | a parsed class list has at least one class |
| `WeeklyPlan.ParseAiData` | types/weekly-plan.ts:18-21 | an absent `ai_creation_data` is accepted as absent |
| `WeeklyPlan.ParseItem` | types/weekly-plan.ts:12-22 | a parsed recipe item satisfies `min(1)` on its classes |
| `WeeklyPlan.ParseMeal` | types/weekly-plan.ts:25-28 | a parsed meal has only valid items and no meal-level pantry list |
| `WeeklyPlan.ParseShopping` | types/weekly-plan.ts:31-35 | a parsed shopping item has at least one recipe reference |
| `WeeklyPlan.ParseDayMenu` | types/weekly-plan.ts:38-43 | a parsed day has two valid meals |
| `WeeklyPlan.ParsePlan` | types/weekly-plan.ts:46-50 | a parsed plan is valid: every day and every shopping item meets its refinements |
| `WeeklyPlan.ItemRoundTrip` | types/weekly-plan.ts:12-22 | a valid recipe item parses back from its JSON form unchanged, with or without AI data |
| `WeeklyPlan.MealRoundTrip` | types/weekly-plan.ts:25-28 | a valid meal parses back from its JSON form, with its notes, minus the undeclared pantry key |
| `WeeklyPlan.ShoppingRoundTrip` | types/weekly-plan.ts:31-35 | a valid shopping item parses back from its JSON form unchanged |
| `WeeklyPlan.DayRoundTrip` | types/weekly-plan.ts:38-43 | a valid day parses back from its JSON form, minus the meals' undeclared pantry keys |
| `WeeklyPlan.PlanRoundTrip` | types/weekly-plan.ts:46-50 | a valid plan, of any number of days, parses back from its JSON form, minus the meals' undeclared pantry keys |
| `WeeklyPlan.ParsedMealsHaveNoPantryList` | types/weekly-plan.ts:25-28 | no meal of a parsed plan carries `ingredients_used_from_pantry` |
| `WeeklyPlan.EmptyClassesRejected` | types/weekly-plan.ts:16 | a recipe item with an empty class list is rejected |
| `WeeklyPlan.EmptyRecipeIdsRejected` | types/weekly-plan.ts:34 | a shopping item with no recipe reference is rejected |
| `WeeklyPlan.UnknownDayRejected` | types/weekly-plan.ts:39 | a day whose label is not one of the seven weekdays is rejected |
| `WeeklyPlan.AiDataOptional` | types/weekly-plan.ts:18-21 | an item without AI data is accepted, and one whose AI data is not an object is rejected |
| `MealDisplay.CoveredClasses` | components/MealDisplay.tsx:13-16 | the set filled by the nested loops is the union of the recipes' classes |
| `MealDisplay.ClassesOfIff` | components/MealDisplay.tsx:13-16 | a class is covered if and only if some recipe of the meal lists it |
| `MealDisplay.MissingClasses` | components/MealDisplay.tsx:18-20 | a class is missing if and only if it is not covered, and the missing ones keep the order veg, carbs, protein |
| `MealDisplay.NoRecipesMissAll` | components/MealDisplay.tsx:18-20 | a meal with no recipes misses veg, carbs and protein |
| `MealDisplay.AppendNeverAddsMissing` | components/MealDisplay.tsx:13-20 | appending a recipe can only remove missing classes, never add one |
| `MealDisplay.MissingAgreesWithCheckCoverage` | components/MealDisplay.tsx:13-20 | the card's missing classes are, by name, what `checkCoverage` reports for the meal's class list |
| `MealDisplay.WarningIff` | components/MealDisplay.tsx:33 | the warning shows if and only if veg, carbs and protein are not all covered |
| `MealDisplay.SortedIsPermutation` | components/MealDisplay.tsx:23 | the sorted list holds the meal's recipes with the same multiplicities |
| `MealDisplay.SortedIsMainsThenSides` | components/MealDisplay.tsx:23-27 | the sorted list is the mains in their original order, then the other recipes in their original order |
| `MealDisplay.MainsComeFirst` | components/MealDisplay.tsx:23-27 | a position of the sorted list holds a main if and only if it is among the first as many positions as there are mains |
| `MealDisplay.MainsPrecedeSides` | components/MealDisplay.tsx:23-27 | every main comes before every non-main in the sorted list |
| `MealDisplay.SortIsStable` | components/MealDisplay.tsx:26 | sorting keeps the relative order among the mains and among the other recipes |
| `MealDisplay.Render` | components/MealDisplay.tsx:12-33 | the card's missing classes, sorted copy and warning are those of the meal |
| `MealEditor.ToggleEatingOut` | components/MealEditor.tsx:17-23 | the toggle always empties the recipe list, writes "Pasto fuori casa" when the meal had recipes and "" when it had none, and keeps the other fields |
| `MealEditor.ToggleStaysEatingOut` | components/MealEditor.tsx:15-23 | a toggled meal is eaten out, and a second toggle only clears the note |
| `MealEditor.ToggleKeepsValid` | components/MealEditor.tsx:17-23 | toggling keeps a meal valid for the schema |
| `MealEditor.SpliceStart` | components/MealEditor.tsx:27 | `splice`'s start clamps a negative index from the end at 0 and a large one at the length |
| `MealEditor.ShiftDown` | components/MealEditor.tsx:27 | shifting the elements after position k down by one leaves the list without its element at k in the first n-1 slots |
| `MealEditor.RemoveRecipe` | components/MealEditor.tsx:25-29 | the new meal is the old one with the recipe at the splice position removed and nothing else changed |
| `MealEditor.RemoveInRange` | components/MealEditor.tsx:25-28 | for an index inside the list, the new list is `recipes[..i] + recipes[i+1..]`, one shorter, the others in order |
| `MealEditor.RemovePastEnd` | components/MealEditor.tsx:27 | an index past the end removes nothing |
| `MealEditor.RemoveFromEnd` | components/MealEditor.tsx:27 | a negative index removes the element that far from the end, or the first one |
| `MealEditor.RemoveKeepsValid` | components/MealEditor.tsx:25-28 | removal keeps the meal valid, and removing the only recipe makes it eaten out |
| `DashboardClient.ToggleTag` | components/DashboardClient.tsx:27-33 | a selected tag has every copy removed and the other tags keep their order; an unselected one is appended at the end; no other tag changes membership |
| `DashboardClient.ToggleTwiceRestores` | components/DashboardClient.tsx:27-33 | toggling an unselected tag twice restores the selection |
| `DashboardClient.ToggleKeepsDistinct` | components/DashboardClient.tsx:27-33 | a selection without repeats has none after a toggle |
| `DashboardClient.FilteredRecipes` | components/DashboardClient.tsx:35-45 | a recipe is shown if and only if its lower-cased name contains the lower-cased search and it carries every selected tag; the result is an order-preserving subsequence |
| `DashboardClient.EverythingWithoutFilters` | components/DashboardClient.tsx:35-45 | no search and no tag shows every recipe in order |
| `DashboardClient.TaglessHiddenWhenTagSelected` | components/DashboardClient.tsx:41-42 | with a tag selected, a recipe without tags is not shown |
| `DashboardClient.MoreTagsNarrow` | components/DashboardClient.tsx:35-45 | selecting more tags yields a subsequence of the list shown before |
| `DashboardClient.OnlyTheTagSetMatters` | components/DashboardClient.tsx:41-42 | the order and repeats of the selected tags do not change the list |
| `DashboardClient.RecipeSearchIgnoresCase` | components/DashboardClient.tsx:36-37 | lower-casing the search text does not change the list |
| `DashboardClient.FilteredPantry` | components/DashboardClient.tsx:47-49 | an item is shown if and only if its lower-cased name contains the lower-cased search; order is kept |
| `DashboardClient.WholePantryWithoutSearch` | components/DashboardClient.tsx:47-49 | an empty search shows the whole pantry in order |
| `DashboardClient.PantryMatchIff` | components/DashboardClient.tsx:47-49 | an item is shown if and only if the lower-cased search occurs at some position of its lower-cased name |
| `DashboardClient.EmptyMessage` | components/DashboardClient.tsx:87-89 | a message appears if and only if the list is empty, and it depends on whether a search is typed |
| `DashboardClient.PantryMessageTruthful` | components/DashboardClient.tsx:87-89 | without a search, "La dispensa è vuota." appears if and only if the pantry is empty |
| `DashboardClient.SavedMessageUnderTagFilter` | components/DashboardClient.tsx:150-152 | with no search text and any tag selected, recipes that carry no tags are all hidden, and the page says "Nessuna ricetta salvata." although recipes exist |
| `RecipePickerDialog.PickerList` | components/RecipePickerDialog.tsx:44-48 | a recipe is listed if and only if its name matches the search case-insensitively and its role is the requested one; order is kept |
| `RecipePickerDialog.ListedHaveRole` | components/RecipePickerDialog.tsx:46 | every listed recipe has the requested role |
| `RecipePickerDialog.EmptySearchListsRole` | components/RecipePickerDialog.tsx:44-48 | an empty search lists exactly the recipes of the role, in order |
| `RecipePickerDialog.RolesDisjoint` | components/RecipePickerDialog.tsx:46 | no recipe is listed for both roles |
| `RecipePickerDialog.SelectRecipe` | components/RecipePickerDialog.tsx:79-85 | the item copies id, name, role and classes from the recipe, with source `user` and no AI data |
| `RecipePickerDialog.SelectedIsValid` | components/RecipePickerDialog.tsx:79-85 | a recipe with at least one class gives a valid plan item |
| `RecipePickerDialog.PickFromList` | components/RecipePickerDialog.tsx:74-85 | any listed recipe can be picked and lands with the dialog's role |
| `Seqs.DedupFacts` | components/DayCard.tsx:26 | `[...new Set(xs)]` has the same elements as `xs`, no repeats, and is a subsequence of `xs`; each prefix's result grows by the next element exactly when that element is new, which fixes first-occurrence order |
| `Seqs.DedupSnoc` | components/DayCard.tsx:26 | appending an element to the input appends it to the deduplicated list if and only if it is new, and otherwise changes nothing |
| `Seqs.DedupUnion` | components/DayCard.tsx:26 | the deduplicated concatenation is the deduplicated first list, then the deduplicated second list without what the first holds |
| `DayCard.PantryLine` | components/DayCard.tsx:23-26 | the line is present if and only if one of the two lists is non-empty |
| `DayCard.ShownIsUnion` | components/DayCard.tsx:26 | the shown list holds exactly the lunch and dinner ingredients, each once |
| `DayCard.LunchFirst` | components/DayCard.tsx:26 | the lunch ingredients come first, then the dinner ones not already listed |
| `DayCard.MissingListIsEmpty` | components/DayCard.tsx:11-12 | a missing lunch list counts as empty |
| `DayCard.ShowsLineIff` | components/DayCard.tsx:23-26 | the line shows if and only if the merged list is non-empty |
| `DayCard.ParsedDayShowsNoLine` | components/DayCard.tsx:11-12 | meals without a pantry list, as the schema produces them, never show the line |
| `HistoryClient.NoDaysNotV2` | components/HistoryClient.tsx:16 | a plan whose `menu_data` is missing, not a list or empty is not current |
| `HistoryClient.V2Iff` | components/HistoryClient.tsx:15-21 | with a non-empty day list, the plan is current if and only if the first day is an object whose `lunch` is an object holding a `recipes` list |
| `HistoryClient.OnlyFirstDayMatters` | components/HistoryClient.tsx:17-20 | the days after the first never change the verdict |
| `HistoryClient.DinnerIgnored` | components/HistoryClient.tsx:17-20 | the first day's dinner never changes the verdict |
| `HistoryClient.LegacyShapesNotV2` | components/HistoryClient.tsx:18-20 | a lunch that is a text, or an object without a `recipes` list, is classed as old |
| `HistoryClient.StoredPlansAreV2` | components/HistoryClient.tsx:15-21 | the JSON form of any non-empty list of days is classed as current |
| `MenuActions.PantryContextIff` | app/actions/menu-actions.ts:15 | the pantry context is "Vuota" if and only if the pantry is missing or empty |
| `MenuActions.PantrySingle` | app/actions/menu-actions.ts:15 | one item gives exactly its entry |
| `MenuActions.PantryAppend` | app/actions/menu-actions.ts:15 | a further item appends ", " and its entry, in query order |
| `MenuActions.RecipesContextIff` | app/actions/menu-actions.ts:16 | the recipe context is "Nessuna ricetta salvata" if and only if the recipe list is missing or empty |
| `MenuActions.OneLinePerRecipe` | app/actions/menu-actions.ts:16 | splitting the recipe context at line breaks gives one line per recipe, in order, when no name or serialisation holds a line break |
| `MenuActions.IngredientCount` | app/actions/menu-actions.ts:90-91 | there are as many ingredients, and as many tags, as commas plus one |
| `MenuActions.ParsedNamesClean` | app/actions/menu-actions.ts:90-91 | every parsed name is trimmed and holds no comma |
| `MenuActions.EmptyIngredients` | app/actions/menu-actions.ts:90 | an empty field yields one ingredient with an empty name |
| `MenuActions.TagsRoundTrip` | app/actions/menu-actions.ts:91 | trimmed, comma-free tags written as `a, b, c` parse back to the same tags |
| `Csv.EscapeNoQuote` | components/ExportButton.tsx:88-89 | text without a double quote is written unchanged, so leaving role and classes unescaped is harmless |
| `Csv.ReadEscaped` | components/ExportButton.tsx:82 | the reader stops at the closing quote and undoes the doubled quotes |
| `Csv.ReadQuotedRecords` | components/ExportButton.tsx:91 | records of quoted fields read back as their fields, whatever the fields contain |
| `Csv.ReadTable` | components/ExportButton.tsx:80-101 | a plain header followed by quoted records reads back as the header and each record |
| `ExportButton.WithExtension` | components/ExportButton.tsx:21 | the name ends with the extension and starts with the given name, adding at most the extension |
| `ExportButton.ExtensionOnce` | components/ExportButton.tsx:68 | a name that already ends with the extension is kept, and the extension is never added twice |
| `ExportButton.NatTextValue` | components/ExportButton.tsx:84-86 | the decimal text that `join` gives a whole-number ingredient name reads back as that number |
| `ExportButton.IngredientName` | components/ExportButton.tsx:84 | `i.name` of a `null` element throws, an object's string name is kept, and an element without a name gives an empty text |
| `ExportButton.NamesOf` | components/ExportButton.tsx:84 | the mapping fails if and only if some element is `null`, and otherwise has one name per element |
| `ExportButton.NamesOfNamed` | components/ExportButton.tsx:83-85 | a list of `{name}` objects maps to those names |
| `ExportButton.FormIngredientsExport` | components/ExportButton.tsx:83-86 | ingredients stored by the recipe form export as the names the form parsed |
| `ExportButton.RecipeFields` | components/ExportButton.tsx:82-89 | a recipe has five columns, the first its name, unless its ingredient list makes the export throw |
| `ExportButton.RecipeRecords` | components/ExportButton.tsx:81-92 | the records exist if and only if every recipe's columns exist, one record per recipe in order |
| `ExportButton.RecipeCsv` | components/ExportButton.tsx:78-92 | the recipe CSV exists if and only if every recipe's records do |
| `ExportButton.RecipeText` | components/ExportButton.tsx:82-91 | the template line of a recipe is its quoted record |
| `ExportButton.RecipeLine` | components/ExportButton.tsx:82-91 | the five quoted pieces joined by commas are the recipe's quoted record |
| `ExportButton.ExportRecipes` | components/ExportButton.tsx:78-92 | the loop builds the header and one quoted line per recipe, or stops when an ingredient is `null` |
| `ExportButton.RecipeCsvReadsBack` | components/ExportButton.tsx:80-92 | read back with the rules of RFC 4180, the recipe CSV is the header `nome,ingredienti,tag,ruolo,classi` and then each recipe's five fields |
| `ExportButton.RecipeCsvFailsIff` | components/ExportButton.tsx:83-84 | the recipe export fails if and only if some recipe's ingredient list holds a `null` |
| `ExportButton.RecipeColumns` | components/ExportButton.tsx:83-89 | a missing role is written `main` and a set role reads back as itself; missing tags, a non-list ingredient column and missing classes give empty fields |
| `ExportButton.FormRecipeRoundTrip` | components/ExportButton.tsx:83-86 | the ingredient column of a form-entered recipe parses back, by the form's rules, to the same ingredient names |
| `ExportButton.PantryFields` | components/ExportButton.tsx:97-99 | an item has three columns: its name, its quantity or "" when missing, its category or "" when missing |
| `ExportButton.ExportPantry` | components/ExportButton.tsx:94-102 | the loop builds the header and one quoted line per item |
| `ExportButton.PantryCsvReadsBack` | components/ExportButton.tsx:95-101 | read back with the rules of RFC 4180, the pantry CSV is the header `nome,quantità,categoria` and then each item's three fields |
| `ExportButton.AppendRecipes` | components/ExportButton.tsx:38-40 | the loop appends one `- name (role)` line per recipe |
| `ExportButton.AppendShopping` | components/ExportButton.tsx:56-58 | the loop appends one `- [ ] item (quantity)` line per shopping item |
| `ExportButton.AppendDay` | components/ExportButton.tsx:35-53 | a day appends its heading, lunch recipes, dinner recipes, pantry note when the merged list is non-empty, and a blank line |
| `ExportButton.PantryNoteText` | components/ExportButton.tsx:45-51 | the pantry note is written if and only if the merged lunch and dinner list is non-empty |
| `ExportButton.PlanMarkdown` | components/ExportButton.tsx:30-31 | a document exists if and only if there is a plan element |
| `ExportButton.ExportPlan` | components/ExportButton.tsx:29-62 | the loop builds the title, one section per day, the shopping checklist, then the summary if the note is non-empty |
| `ExportButton.MarkdownReadsBack` | components/ExportButton.tsx:33-62 | split at line feeds, the document gives back its lines when no field holds a line feed |
| `ExportButton.OneHeadingPerDay` | components/ExportButton.tsx:35-36 | the days part has exactly one `## day` heading per day, in the plan's order |
| `ExportButton.PantryNoteMatchesCard` | components/ExportButton.tsx:45-50 | a day's pantry note appears if and only if its card shows the pantry line, listing the same ingredients |
| `ExportButton.SummaryOnlyWhenNoted` | components/ExportButton.tsx:60-62 | the summary closes the document after a rule if and only if the note is non-empty; otherwise the checklist ends it |
| `ExportButton.ExportFile` | components/ExportButton.tsx:14-27 | the history is the serialised list under a `.json` name, the pantry CSV under the given name |
| `ExportButton.Export` | components/ExportButton.tsx:14-113 | the click handler produces the download of the data's kind |
| `ExportButton.DownloadNames` | components/ExportButton.tsx:21-109 | the CSV files keep the given name, the plan ends with `.md`, the history with `.json` |
| `ExportButton.NoDownloadIff` | components/ExportButton.tsx:29-31 | nothing is downloaded if and only if there is no plan element or a recipe ingredient is `null` |
| `ExportButton.ButtonLabel` | components/ExportButton.tsx:124 | a given non-empty label is used; otherwise "Esporta Piano" if and only if the data is a plan |

## Left out

- Database reads and writes, the language-model call, `revalidatePath` and the success/error wrapping of the server actions: network and storage I/O (`app/actions/menu-actions.ts:11-12`, `40-68`, `76-94`).
- The prompt template around the two context strings: fixed text with no rule in it (`app/actions/menu-actions.ts:18-37`).
- A repair engine, frequency caps and recipe-identity resolution: the code has none. `PlannerUtils.MaxRecipeFrequencyPerWeek`, `PlannerUtils.PromptVersion` and `PlannerUtils.ModelName` are declared with their values, and nothing reads them.
- `lib/ai/providers.ts` and `lib/use-local-storage-draft.ts`: environment lookups, foreign SDKs, local storage and timers.
- Blob, URL and DOM download plumbing in the export button: the model stops at the file name and content.
- React rendering, state hooks, dialogs, alerts and timers. Locale date formatting in the history page. The rendering of old plan shapes.
- Text.ToLower: lower-cases only ASCII and Latin-1 capitals. Full Unicode case mapping is not modelled.
- Text.IsSpace: the ECMAScript white-space set is written out. Other Unicode space properties are not modelled.
- `JSON.stringify` is a parameter of the builders that use it. Its output is not modelled.
- JSON numbers are integers. Floating point is not modelled. `String(n)` is modelled only for whole numbers.
- The rows of the components are typed records. A row whose `name` is not a string makes the source throw; the model cannot build one.
- RecipePickerDialog.SelectRecipe: a recipe whose `nutritional_classes` column is `null` gets an empty class list. The source passes the `null` on.
- ExportButton.ExportFile: its contract pins the history and pantry branches. The plan and recipe branches are pinned by `ExportButton.NoDownloadIff`, `ExportButton.DownloadNames` and the `Export` method.
