# Recipe book: nutrition estimator and list handlers, in Dafny

This project models two parts of a Brazilian recipe-collection web app.

**The nutrition estimator** (`calculateNutrition` in `src/lib/nutrition-calculator.ts`):
- A fixed table maps 24 Portuguese food keywords to macro-nutrients per 100 g.
- Every ingredient line is lowercased. Each keyword that occurs in the line as a substring adds its profile, scaled by a quantity multiplier.
- The multiplier is guessed from words in the line: "kg"/"quilo"; a number before a `g`; "xícara", "colher" or "lata".
- The five totals are rounded once at the end.

**The list handlers of the recipe page** (`src/app/page.tsx`):
- splitting the ingredient text of the "new recipe" form;
- validating and saving a recipe;
- favouriting a recipe, liking a community recipe;
- adding, ticking and deleting shopping-list items;
- adding a category, and toggling a category on a recipe.

Modules:

- `Lists` (`lists.dfy`):
  - `Option`, for the optional properties of the TypeScript records;
  - an order-preserving `Filter` (`Array.prototype.filter`) with its laws.
- `JsText` (`js_text.dfy`):
  - the string primitives the source relies on: `toLowerCase`, `includes` and `split` on one character;
  - the JavaScript classes `\d` and `\s`.
- `NutritionCalculator` (`nutrition_calculator.dfy`):
  - the table and the multiplier rule;
  - the regular expression `(\d+)\s*g`, stated declaratively and decided by a scanner;
  - the specification functions `LineTotal`, `RawTotal` and `Estimate`;
  - `CalculateNutrition`, a method with the source's two nested loops and `+=` updates. Its loop invariants tie the running totals to `RawTotal`.
- `NutritionProperties` (`nutrition_properties.dfy`): what the estimate means.
  - Each line contributes the sum of its matched profiles times one multiplier.
  - Overlapping keys both count.
  - Line order does not matter.
  - The results are non-negative and rounded half up.
- `NutritionExamples` (`nutrition_examples.dfy`): worked lines, several of them from the bundled recipe data, with their multipliers and estimates.
- `RecipeBook` (`recipe_book.dfy`): the page handlers as functions from the old list to the new one, with the properties they keep.

Behaviour the model reproduces on purpose, all of it following the code:

- **Any letter `g` selects the gram rule** (`nutrition-calculator.ts:69`).
  - The branch fires on the `g` in words like "manteiga". When `(\d+)\s*g` then finds no match, the multiplier stays at its initial 0.5.
  - The cup, spoon and can cues are never consulted for such a line. "2 colheres de sopa de manteiga" gets 0.5, not 0.15 (`SpoonOfButterIsNotASpoon`).
- **Keys that occur inside longer keys count again.** "leite" also matches in "leite condensado" and "creme de leite" (`MilkIsCountedTwice`).
- **Rounding is half up.** `Math.round` rounds halves up, so 559.5 calories round to 560 (`CheeseAndButter`).
- **Save validation checks the raw text.** It tests the ingredient text before the split. Any non-empty text made only of newlines and white space passes, and the recipe is saved with no ingredients and an all-zero estimate (`BlankIngredientsAreSaved`).
- **Category names are compared exactly.** The duplicate test compares the untrimmed name, so " Doces" is added beside "Doces" (`PaddedNameIsNew`).

Modelling choices:

- **Numbers** are exact reals. `Math.round(x)` is `⌊x + 1/2⌋`.
- **Lowercasing** maps ASCII `A`–`Z` and the Latin-1 capitals U+00C0–U+00DE, except ×, to their lower-case letters. Every other character is kept.
- **`\d`** is the ASCII digits. **`\s`** and `trim` use the ECMAScript white-space and line-terminator set.
- **Optional record properties** are `Option`s.
  - An absent `isFavorite` counts as false.
  - An absent `likes` counts as 0.
  - An absent `userCategories` counts as the empty list.
- **Identifiers and timestamps**, which the page takes from `Date.now()`, `Math.random()` and `new Date()`, are parameters.

## Model

| member | source | states |
|---|---|---|
| NutritionCalculator.TableNonNegative | src/lib/nutrition-calculator.ts:11-45 | every value of every one of the 24 per-100 g profiles is non-negative |
| NutritionCalculator.DigitRunEnd | src/lib/nutrition-calculator.ts:70 | the greedy `\d+`: the end of the maximal run of digits starting at a position |
| NutritionCalculator.SpaceRunEnd | src/lib/nutrition-calculator.ts:70 | the greedy `\s*`: the end of the maximal run of white space starting at a position |
| NutritionCalculator.MatchesHereCorrect | src/lib/nutrition-calculator.ts:70 | the scan at a position matches exactly when the regular expression matches there, and the captured digits end where the digit run ends |
| NutritionCalculator.GramQuantityFrom | src/lib/nutrition-calculator.ts:70-72 | returns nothing exactly when no match starts at or after the position; otherwise returns the value of the leftmost match from there |
| NutritionCalculator.FirstGramQuantity | src/lib/nutrition-calculator.ts:70-72 | returns nothing exactly when `(\d+)\s*g` matches nowhere; otherwise returns `parseInt` of the leftmost match's capture |
| NutritionCalculator.LeftmostGramMatchUnique | src/lib/nutrition-calculator.ts:70 | the leftmost match, and so its capture, is unique |
| NutritionCalculator.LeftmostMatchIsMaximalRun | src/lib/nutrition-calculator.ts:70 | the capture is a whole run of digits: no digit directly before it or after it |
| NutritionCalculator.Multiplier | src/lib/nutrition-calculator.ts:65-80 | the multiplier chosen for a lowercased line is never negative |
| NutritionCalculator.KiloRule | src/lib/nutrition-calculator.ts:67-68 | a line mentioning "kg" or "quilo" gets 5, whatever else it says |
| NutritionCalculator.GramRule | src/lib/nutrition-calculator.ts:69-73 | without "kg"/"quilo", a line holding any `g` gets N/100 for the leftmost `<digits><spaces>g`, and 0.5 when there is none, even if it mentions a cup, spoon or can |
| NutritionCalculator.UnitRule | src/lib/nutrition-calculator.ts:65-80 | only a line with no `g` reaches the cues: "xícara" 1.2, else "colher" 0.15, else "lata" 2, else 0.5 |
| NutritionCalculator.Round | src/lib/nutrition-calculator.ts:93 | `Math.round`: the integer within one half below and strictly less than one half above, so halves round up |
| NutritionCalculator.RoundTenth | src/lib/nutrition-calculator.ts:94-97 | `Math.round(x * 10) / 10`: a whole number of tenths within 0.05 of `x`, halves up |
| NutritionCalculator.InferMultiplier | src/lib/nutrition-calculator.ts:65-80 | the source's if/else chain, starting from the 0.5 default, computes exactly `Multiplier` |
| NutritionCalculator.CalculateNutrition | src/lib/nutrition-calculator.ts:47-99 | the nested loops with five `+=` per matched key return exactly the rounded sum over lines and matched keys of profile × multiplier (`Estimate`) |
| NutritionProperties.KeysTotalFactors | src/lib/nutrition-calculator.ts:60-86 | summing contributions key by key equals the sum of the matched profiles scaled once by the line's multiplier |
| NutritionProperties.LineTotalFactors | src/lib/nutrition-calculator.ts:56-86 | a line adds (sum of the profiles of the keys it contains) × (its one multiplier): every key on a line is scaled by the same value |
| NutritionProperties.MatchedEntriesMembers | src/lib/nutrition-calculator.ts:60-61 | a table entry is matched exactly when its key is a substring of the lowercased line |
| NutritionProperties.KeysTotalSingle | src/lib/nutrition-calculator.ts:60-86 | when exactly one key occurs, the line adds that profile × multiplier |
| NutritionProperties.KeysTotalPair | src/lib/nutrition-calculator.ts:60-86 | when exactly two keys occur, the line adds both profiles, each × the multiplier |
| NutritionProperties.UnmatchedLineAddsNothing | src/lib/nutrition-calculator.ts:56-61 | a line containing no key adds nothing to any total |
| NutritionProperties.NestedKeysBothMatch | src/lib/nutrition-calculator.ts:60-61 | a key that occurs inside another key matches every line the longer key matches |
| NutritionProperties.MilkIsCountedTwice | src/lib/nutrition-calculator.ts:57-61 | a line with "leite condensado" or "creme de leite" also matches "leite", so both profiles count |
| NutritionProperties.EstimateOfNoLines | src/lib/nutrition-calculator.ts:47-99 | no ingredient lines give five zeros |
| NutritionProperties.RawTotalConcat | src/lib/nutrition-calculator.ts:56-89 | the unrounded total of two lists of lines is the sum of their totals |
| NutritionProperties.RawTotalPermutation | src/lib/nutrition-calculator.ts:56-89 | reordering the lines does not change the unrounded total |
| NutritionProperties.EstimatePermutationInvariant | src/lib/nutrition-calculator.ts:47-99 | reordering the lines does not change the estimate |
| NutritionProperties.KeysTotalNonNegative | src/lib/nutrition-calculator.ts:82-86 | with non-negative profiles, what a line adds is non-negative |
| NutritionProperties.RawTotalNonNegative | src/lib/nutrition-calculator.ts:56-89 | every unrounded total is non-negative |
| NutritionProperties.EstimateNonNegative | src/lib/nutrition-calculator.ts:92-98 | every field of every estimate is non-negative |
| NutritionProperties.RoundedNonNegative | src/lib/nutrition-calculator.ts:92-98 | rounding never takes a non-negative total below zero |
| NutritionProperties.EstimateRounding | src/lib/nutrition-calculator.ts:92-98 | calories are the unrounded calories rounded half up to a whole number; the other four fields are whole numbers of tenths, within 0.05 of the unrounded value with halves rounded up |
| NutritionProperties.LineTotalIgnoresCase | src/lib/nutrition-calculator.ts:56-61 | a line and its lowercased form add the same amounts: matching ignores case |
| NutritionExamples.GramMatchEndsAfterDigitOrSpace | src/lib/nutrition-calculator.ts:70 | every match ends in a `g` that directly follows a digit or white space |
| NutritionExamples.NoGramMatch | src/lib/nutrition-calculator.ts:70 | a line whose every `g` follows something else has no match |
| NutritionExamples.NoGramMatchAtSingleG | src/lib/nutrition-calculator.ts:70 | a line with one `g`, right after a character that is neither a digit nor white space, has no match |
| NutritionExamples.SpoonOfButterIsNotASpoon | src/lib/nutrition-calculator.ts:69-80 | "2 colheres de sopa de manteiga" mentions "colher", yet its multiplier is 0.5 |
| NutritionExamples.KilogramOfCassava | src/lib/nutrition-calculator.ts:67-68 | "1kg de mandioca" gets 5 |
| NutritionExamples.FiveHundredGramsOfBeans | src/lib/nutrition-calculator.ts:69-73 | "500g de feijão preto" gets 500/100 = 5 |
| NutritionExamples.HundredGramsOfRice | src/lib/nutrition-calculator.ts:47-99 | the estimate of ["100g de arroz"] is the rice profile once: 130, 2.7, 28, 0.3, 0.4 |
| NutritionExamples.CupOfFlour | src/lib/nutrition-calculator.ts:47-99 | the estimate of ["1 xícara de farinha"] is 437, 12, 91.2, 1.2, 3.2 |
| NutritionExamples.CheeseAndButter | src/lib/nutrition-calculator.ts:47-99 | "queijo e manteiga" matches both keys at 0.5: 559.5 raw calories, estimated 560, fat 57 |
| JsText.Lower | src/lib/nutrition-calculator.ts:57 | `toLowerCase` leaves no capital, keeps the length, and returns a string without capitals unchanged |
| JsText.LowerIdempotent | src/lib/nutrition-calculator.ts:57 | lowercasing twice is lowercasing once |
| JsText.LowerChar | src/lib/nutrition-calculator.ts:57 | a capital becomes its own small letter, 32 code points higher; every other character, digits and white space included, is kept |
| JsText.Includes | src/lib/nutrition-calculator.ts:61 | `s.includes(k)` holds exactly when `k` occurs in `s` at some index |
| JsText.IncludesChar | src/lib/nutrition-calculator.ts:69 | `includes('g')` is membership of the letter `g` |
| JsText.Split | src/app/page.tsx:324 | `split("\n")` gives at least one piece, no piece contains the separator, and joining the pieces gives back the text |
| JsText.SplitJoin | src/app/page.tsx:324 | splitting undoes joining when no piece contains the separator |
| Lists.Filter | src/app/page.tsx:442 | `filter` keeps exactly the elements that pass, each as often as before, and no others |
| Lists.FilterConcat | src/app/page.tsx:442 | filtering distributes over concatenation, so the survivors keep their order |
| Lists.FilterNoDuplicates | src/app/page.tsx:477 | filtering a list without repeats leaves none |
| RecipeBook.SplitIngredients | src/app/page.tsx:324 | every kept line is non-blank and has no newline, and the kept lines are exactly the non-blank pieces of the text |
| RecipeBook.SplitIngredientsOfJoin | src/app/page.tsx:324 | non-blank, newline-free lines joined by newlines split back into the same lines in the same order |
| RecipeBook.SplitIngredientsSingleLine | src/app/page.tsx:324 | a non-blank text without newline is one line, kept untrimmed |
| RecipeBook.SplitIngredientsAppend | src/app/page.tsx:324 | the lines of `a + "\n" + b` are the lines of `a` followed by the lines of `b` |
| RecipeBook.OrDefault | src/app/page.tsx:332-336 | an empty field yields the fallback itself, a non-empty field is kept, and the result is never empty when the fallback is not |
| RecipeBook.NewRecipe | src/app/page.tsx:324-345 | the saved recipe has the form's title, instructions, image URL and split ingredients; preparation time, servings, category and source are the form's values or "30 min", "4 porções", "Diversos", "Minha receita"; a non-negative estimate of its own ingredients, a stored like count of 0, and a stored favourite and public flag of `false` |
| RecipeBook.SaveRecipe | src/app/page.tsx:318-359 | the state is unchanged exactly when title, ingredients or instructions is empty; otherwise the new recipe is put in front of the others and the form is cleared |
| RecipeBook.SplitIngredientsOfBlank | src/app/page.tsx:324 | a text of white space and newlines keeps no line |
| RecipeBook.BlankIngredientsAreSaved | src/app/page.tsx:319-325 | any non-empty ingredient text of white space and newlines passes validation and is saved with no ingredients and zero nutrition |
| RecipeBook.ToggleFavorite | src/app/page.tsx:381-385 | same length; recipes with another id unchanged; matching ones flip their favourite status and change no other field |
| RecipeBook.ToggleFavoriteTwice | src/app/page.tsx:381-385 | toggling twice restores every favourite status, and the whole list when matching recipes carry the flag |
| RecipeBook.SavedRecipeToggledTwice | src/app/page.tsx:338-341 | a freshly saved recipe, which stores `isFavorite: false`, comes back unchanged after two favourite toggles |
| RecipeBook.LikeRecipe | src/app/page.tsx:395-399 | same length; other recipes unchanged; matching ones store the number `(likes || 0) + 1` (absent counts as 0) and change no other field |
| RecipeBook.LikeRecipeTotal | src/app/page.tsx:395-399 | the total number of likes grows by the number of recipes carrying the id |
| RecipeBook.AddToShoppingList | src/app/page.tsx:422-431 | the old items are kept in front, unchanged; one unchecked "Ingredientes" item per ingredient follows, with names in ingredient order and the i-th drawn id on the i-th new item |
| RecipeBook.AddToShoppingListKeepsChecked | src/app/page.tsx:422-431 | adding ingredients does not change how many items are ticked |
| RecipeBook.ToggleShoppingItem | src/app/page.tsx:434-438 | same length; other items unchanged; matching items flip `checked` and change nothing else |
| RecipeBook.ToggleShoppingItemTwice | src/app/page.tsx:434-438 | toggling an item twice gives back the list |
| RecipeBook.ToggleAfterAdd | src/app/page.tsx:422-438 | ticking an item whose id is not among the new ones commutes with adding ingredients |
| RecipeBook.DeleteShoppingItem | src/app/page.tsx:441-443 | exactly the items with the id are removed; every other item stays with its multiplicity |
| RecipeBook.DeleteShoppingItemAppend | src/app/page.tsx:441-443 | deletion distributes over concatenation, so the survivors keep their relative order |
| RecipeBook.DeleteShoppingItemIdempotent | src/app/page.tsx:441-443 | deleting changes nothing exactly when no item has the id; deleting twice equals deleting once |
| RecipeBook.AddCategory | src/app/page.tsx:459-467 | a blank name is ignored; a name already present (exact text) is refused; any other name is appended |
| RecipeBook.AddCategoryKeepsNoDuplicates | src/app/page.tsx:459-467 | a category list without repeats stays without repeats |
| RecipeBook.PaddedNameIsNew | src/app/page.tsx:460-461 | " Doces" is appended next to "Doces": the duplicate test does not trim |
| RecipeBook.ToggledCategories | src/app/page.tsx:472-478 | the category is present afterwards exactly when it was absent; an absent one is appended; a present one is filtered out, every copy of it, with the other categories kept in order and multiplicity |
| RecipeBook.ToggleRecipeCategory | src/app/page.tsx:469-483 | same length; other recipes unchanged; matching recipes have the category toggled in their (possibly absent) list and nothing else changed |
| RecipeBook.ToggledCategoriesTwice | src/app/page.tsx:472-478 | toggling an absent category twice gives back the original list |
| RecipeBook.ToggleRecipeCategoryTwice | src/app/page.tsx:469-483 | toggling twice restores every recipe whose category list was present and lacked the category |
| RecipeBook.ToggledCategoriesKeepsNoDuplicates | src/app/page.tsx:472-478 | a toggle never introduces a repeated category |

## Left out

- Multiplier: its own contract states only that the value is non-negative. The value itself is stated by `KiloRule`, `GramRule` and `UnitRule`, which together cover every line.
- ToggleFavoriteTwice: the involution holds only for recipes whose `isFavorite` is present. An absent flag becomes `false` after two toggles, which keeps the status but not the record.
- ToggleRecipeCategoryTwice: restores only recipes whose category list is present and lacks the category. Toggling a present category twice moves it to the end and merges its copies into one.
- **IEEE-754 doubles.** The model computes the estimate on exact reals; the application computes it in doubles, adding in the same order.
  - Where the exact value lies on a half in the last kept digit, the doubles can fall just below it and round one unit lower. "70g de frango" is exactly 165 × 0.7 = 115.5 calories, which `Estimate` rounds to 116, but the double product is 115.49999999999999 and the application shows 115. Tenths are affected the same way, so a displayed field can be 0.1 lower than the model's.
  - `parseInt` returns Infinity once the captured digits stand for a value of about 1.8 × 10^308 or more; below that it returns a finite double, whatever the number of digits (leading zeros count for nothing).
  - Products and sums overflow to Infinity for smaller quantities too: a multiplier of 9 × 10^305 already makes 884 × 9 × 10^305 calories Infinity, while the fields whose profile value is 0 stay 0.
  - NaN appears only as 0 × Infinity, when the multiplier itself is Infinity, that is, when `parseInt` returned Infinity; every field whose profile value is 0 is then NaN.
  - `EstimateRounding`, `EstimateNonNegative`, `RawTotalNonNegative` and the worked examples hold for the exact-real model only, not for the double results.
- **Full-Unicode `toLowerCase`.** Only ASCII and Latin-1 capitals are lowered, which covers the Portuguese keys and cues.
- **`formatNutrition`** (`nutrition-calculator.ts:101-109`): it depends on JavaScript number-to-string conversion.
- **Clock, randomness and locale.**
  - The `Date.now()`/`Math.random()` ids and the `new Date()` timestamps are parameters.
  - The random initial likes of the bundled recipes are left out.
  - `getNextDays` is left out.
- **React plumbing.** Dialog visibility, `alert`, JSX rendering and the `localStorage` load/save effects are left out.
  - This includes the clearing of the category-name input after `addCategory`.
- **The handlers outside the list core.** These are `importRecipeFromDatabase`, `shareRecipe`, `addComment` and `addToMealPlan`, plus the image, video and audio import handlers with their `fetch` calls. The estimates those import handlers compute are discarded by the page.
- **The API routes** under `src/app/api/`: network calls and JSON parsing of model output.
- **`src/lib/recipes-database.ts`** is static data. Its hand-entered nutrition values are not produced by the estimator, and no agreement is claimed. Some of its ingredient lines serve as examples.
- **Properties of the table not proved.** The model does not prove that the 24 keys are distinct or lower case. The table is written out in source order, and `Object.keys` visits it in that order.
