/**
 * The list handlers of the recipe page: each takes the current list (the
 * user's recipes, the community recipes, the shopping list or the user's
 * categories) and builds the next one with `map`, `filter`, spread or
 * `split`. Identifiers and timestamps, which the page draws from the clock
 * and from `Math.random`, are parameters here.
 */
module RecipeBook {
  import opened Lists
  import opened JsText
  import opened NutritionCalculator
  import opened NutritionProperties

  // ---------------------------------------------------------------------------
  // Records
  // ---------------------------------------------------------------------------

  datatype Comment = Comment(id: string, author: string, text: string, createdAt: string)

  /** A recipe; the properties the TypeScript interface marks optional are `Option`s. */
  datatype Recipe = Recipe(
    id: string,
    title: string,
    ingredients: seq<string>,
    instructions: string,
    prepTime: string,
    servings: string,
    category: string,
    imageUrl: Option<string>,
    source: string,
    createdAt: string,
    isFavorite: Option<bool>,
    isPublic: Option<bool>,
    author: Option<string>,
    likes: Option<int>,
    comments: Option<seq<Comment>>,
    nutrition: Option<NutritionInfo>,
    userCategories: Option<seq<string>>)

  datatype ShoppingItem = ShoppingItem(id: string, name: string, checked: bool, category: string)

  /** The text fields of the "new recipe" dialog. */
  datatype RecipeForm = RecipeForm(
    title: string,
    ingredients: string,
    instructions: string,
    prepTime: string,
    servings: string,
    category: string,
    imageUrl: string,
    source: string)

  const EmptyForm := RecipeForm("", "", "", "", "", "", "", "")

  /** The page state that saving a recipe reads and writes. */
  datatype Editor = Editor(recipes: seq<Recipe>, form: RecipeForm)

  /** The page's `currentUser`. */
  const CurrentUser := "Você"

  /** `!!r.isFavorite`: an absent flag counts as false. */
  predicate IsFavorite(r: Recipe) {
    r.isFavorite == Some(true)
  }

  /** `r.likes || 0`. */
  function Likes(r: Recipe): int {
    r.likes.GetOr(0)
  }

  /** `r.userCategories || []`. */
  function Categories(r: Recipe): seq<string> {
    r.userCategories.GetOr([])
  }

  // ---------------------------------------------------------------------------
  // Saving a recipe
  // ---------------------------------------------------------------------------

  /** `.filter(i => i.trim())`: a line survives when trimming leaves something. */
  predicate NonBlank(line: string) {
    !IsBlank(line)
  }

  /** `text.split("\n").filter(i => i.trim())`; the kept lines are not trimmed. */
  function SplitIngredients(text: string): (lines: seq<string>)
    ensures forall line :: line in lines ==> NonBlank(line) && '\n' !in line
    ensures forall line :: line in lines <==> line in Split(text, '\n') && NonBlank(line)
  {
    Filter(NonBlank, Split(text, '\n'))
  }

  /**
   * Joining non-blank, newline-free lines and splitting the text again gives
   * back the same lines in the same order.
   */
  lemma SplitIngredientsOfJoin(lines: seq<string>)
    requires |lines| >= 1
    requires forall line :: line in lines ==> NonBlank(line) && '\n' !in line
    ensures SplitIngredients(Join(lines, '\n')) == lines
  {
    SplitJoin(lines, '\n');
    FilterAllKept(NonBlank, lines);
  }

  /** Text with no newline and something other than white space is a single line, kept whole. */
  lemma SplitIngredientsSingleLine(text: string)
    requires '\n' !in text && NonBlank(text)
    ensures SplitIngredients(text) == [text]
  {
    SplitIngredientsOfJoin([text]);
  }

  /**
   * Splitting the concatenation of two texts at a newline splits each text
   * on its own: the kept lines keep their original order.
   */
  lemma SplitIngredientsAppend(a: string, b: string)
    requires '\n' !in a
    ensures SplitIngredients(a + "\n" + b) == SplitIngredients(a) + SplitIngredients(b)
  {
    var s := a + ['\n'] + b;
    assert a + "\n" + b == s;
    IndexAfterPiece(a, '\n', b);
    assert s[..|a|] == a && s[|a| + 1..] == b;
    assert Split(s, '\n') == [a] + Split(b, '\n');
    FilterConcat(NonBlank, [a], Split(b, '\n'));
    assert Split(a, '\n') == [a];
  }

  /** Title, ingredients or instructions left empty: `!newRecipe.title || …`. */
  predicate MissingRequired(form: RecipeForm) {
    form.title == "" || form.ingredients == "" || form.instructions == ""
  }

  /** `field || fallback`. */
  function OrDefault(field: string, fallback: string): (r: string)
    ensures r != ""  <== fallback != ""
    ensures field != "" ==> r == field
    ensures field == "" ==> r == fallback
  {
    if field == "" then fallback else field
  }

  /** The recipe `handleSaveRecipe` builds from the form. */
  function NewRecipe(form: RecipeForm, id: string, createdAt: string): (r: Recipe)
    ensures r.id == id && r.createdAt == createdAt
    ensures r.title == form.title && r.instructions == form.instructions
    ensures r.ingredients == SplitIngredients(form.ingredients)
    ensures r.prepTime == OrDefault(form.prepTime, "30 min")
    ensures r.servings == OrDefault(form.servings, "4 porções")
    ensures r.category == OrDefault(form.category, "Diversos")
    ensures r.source == OrDefault(form.source, "Minha receita")
    ensures r.prepTime != "" && r.servings != "" && r.category != "" && r.source != ""
    ensures r.imageUrl == Some(form.imageUrl)
    ensures r.nutrition == Some(Estimate(r.ingredients)) && NonNegative(r.nutrition.value)
    ensures r.isFavorite == Some(false) && r.isPublic == Some(false) && r.likes == Some(0)
    ensures r.author == Some(CurrentUser) && r.comments == Some([]) && r.userCategories == Some([])
  {
    var lines := SplitIngredients(form.ingredients);
    EstimateNonNegative(lines);
    Recipe(id, form.title, lines, form.instructions,
           OrDefault(form.prepTime, "30 min"),
           OrDefault(form.servings, "4 porções"),
           OrDefault(form.category, "Diversos"),
           Some(form.imageUrl),
           OrDefault(form.source, "Minha receita"),
           createdAt,
           Some(false), Some(false), Some(CurrentUser), Some(0), Some([]),
           Some(Estimate(lines)), Some([]))
  }

  /**
   * `handleSaveRecipe`: with a required field empty nothing changes;
   * otherwise the new recipe goes in front of the others and the form is
   * cleared.
   */
  function SaveRecipe(editor: Editor, id: string, createdAt: string): (r: Editor)
    ensures r == editor <==> MissingRequired(editor.form)
    ensures !MissingRequired(editor.form) ==>
              && r.recipes == [NewRecipe(editor.form, id, createdAt)] + editor.recipes
              && r.form == EmptyForm
  {
    if MissingRequired(editor.form) then editor
    else Editor([NewRecipe(editor.form, id, createdAt)] + editor.recipes, EmptyForm)
  }

  /** A text of white space keeps no line: every piece of it is white space too. */
  lemma {:induction false} SplitIngredientsOfBlank(text: string)
    requires IsBlank(text)
    ensures SplitIngredients(text) == []
  {
    BlankPieces(text);
  }

  /** Every piece of a white-space text, split at newlines, is white space. */
  lemma {:induction false} BlankPieces(text: string)
    requires IsBlank(text)
    ensures forall piece :: piece in Split(text, '\n') ==> IsBlank(piece)
    decreases |text|
  {
    if '\n' in text {
      var i := IndexOf(text, '\n');
      var rest := text[i + 1..];
      assert forall k :: 0 <= k < |rest| ==> rest[k] == text[i + 1 + k];
      assert forall k :: 0 <= k < i ==> text[..i][k] == text[k];
      BlankPieces(rest);
      assert Split(text, '\n') == [text[..i]] + Split(rest, '\n');
    }
  }

  /**
   * Validation looks at the raw ingredient text, not at the lines kept from
   * it: a non-empty text of white space and newlines passes, and the recipe
   * is saved with no ingredients and an all-zero estimate.
   */
  lemma BlankIngredientsAreSaved(editor: Editor, id: string, createdAt: string)
    requires editor.form.title != "" && editor.form.instructions != ""
    requires editor.form.ingredients != "" && IsBlank(editor.form.ingredients)
    ensures !MissingRequired(editor.form)
    ensures SaveRecipe(editor, id, createdAt).recipes[0].ingredients == []
    ensures SaveRecipe(editor, id, createdAt).recipes[0].nutrition == Some(Zero)
  {
    SplitIngredientsOfBlank(editor.form.ingredients);
    assert Estimate([]) == Rounded(Zero);
  }

  // ---------------------------------------------------------------------------
  // Favourites and likes
  // ---------------------------------------------------------------------------

  /** `toggleFavorite`: the recipes with the given id get `isFavorite: !r.isFavorite`. */
  function ToggleFavorite(recipes: seq<Recipe>, id: string): (r: seq<Recipe>)
    ensures |r| == |recipes|
    ensures forall i :: 0 <= i < |r| && recipes[i].id != id ==> r[i] == recipes[i]
    ensures forall i :: 0 <= i < |r| && recipes[i].id == id ==>
              && IsFavorite(r[i]) == !IsFavorite(recipes[i])
              && r[i].isFavorite.Some?
              && r[i] == recipes[i].(isFavorite := r[i].isFavorite)
  {
    seq(|recipes|, i requires 0 <= i < |recipes| =>
      if recipes[i].id == id then recipes[i].(isFavorite := Some(!IsFavorite(recipes[i])))
      else recipes[i])
  }

  /**
   * Toggling twice gives every recipe back its favourite status, and gives
   * back the very same list when the matching recipes carry the flag.
   */
  lemma ToggleFavoriteTwice(recipes: seq<Recipe>, id: string)
    ensures var twice := ToggleFavorite(ToggleFavorite(recipes, id), id);
            |twice| == |recipes| && forall i :: 0 <= i < |recipes| ==> IsFavorite(twice[i]) == IsFavorite(recipes[i])
    ensures (forall i :: 0 <= i < |recipes| && recipes[i].id == id ==> recipes[i].isFavorite.Some?) ==>
              ToggleFavorite(ToggleFavorite(recipes, id), id) == recipes
  {
    var once := ToggleFavorite(recipes, id);
    var twice := ToggleFavorite(once, id);
    if forall i :: 0 <= i < |recipes| && recipes[i].id == id ==> recipes[i].isFavorite.Some? {
      forall i | 0 <= i < |recipes|
        ensures twice[i] == recipes[i]
      {
        if recipes[i].id == id {
          var flag := recipes[i].isFavorite.value;
          assert once[i].isFavorite == Some(!flag);
          assert twice[i].isFavorite == Some(flag);
        }
      }
    }
  }

  /** A freshly saved recipe stores its flag, so toggling it twice gives it back unchanged. */
  lemma SavedRecipeToggledTwice(form: RecipeForm, id: string, createdAt: string)
    ensures var saved := [NewRecipe(form, id, createdAt)];
            ToggleFavorite(ToggleFavorite(saved, id), id) == saved
  {
    ToggleFavoriteTwice([NewRecipe(form, id, createdAt)], id);
  }

  /** `likeRecipe`: `likes: (r.likes || 0) + 1` on the recipes with the given id. */
  function LikeRecipe(recipes: seq<Recipe>, id: string): (r: seq<Recipe>)
    ensures |r| == |recipes|
    ensures forall i :: 0 <= i < |r| && recipes[i].id != id ==> r[i] == recipes[i]
    ensures forall i :: 0 <= i < |r| && recipes[i].id == id ==>
              && Likes(r[i]) == Likes(recipes[i]) + 1
              && r[i].likes == Some(Likes(recipes[i]) + 1)
              && r[i] == recipes[i].(likes := r[i].likes)
  {
    seq(|recipes|, i requires 0 <= i < |recipes| =>
      if recipes[i].id == id then recipes[i].(likes := Some(Likes(recipes[i]) + 1))
      else recipes[i])
  }

  /** Sum of the like counts, a missing count being 0. */
  function TotalLikes(recipes: seq<Recipe>): int {
    if recipes == [] then 0 else Likes(recipes[0]) + TotalLikes(recipes[1..])
  }

  /** Number of recipes carrying the id. */
  function CountId(recipes: seq<Recipe>, id: string): nat {
    if recipes == [] then 0 else (if recipes[0].id == id then 1 else 0) + CountId(recipes[1..], id)
  }

  /** One like goes to each recipe with the id, so the total grows by their number. */
  lemma {:induction false} LikeRecipeTotal(recipes: seq<Recipe>, id: string)
    ensures TotalLikes(LikeRecipe(recipes, id)) == TotalLikes(recipes) + CountId(recipes, id)
  {
    if recipes != [] {
      var liked := LikeRecipe(recipes, id);
      assert liked[1..] == LikeRecipe(recipes[1..], id);
      LikeRecipeTotal(recipes[1..], id);
    }
  }

  // ---------------------------------------------------------------------------
  // The shopping list
  // ---------------------------------------------------------------------------

  /** The item `addToShoppingList` makes for one ingredient. */
  function NewItem(id: string, ingredient: string): ShoppingItem {
    ShoppingItem(id, ingredient, false, "Ingredientes")
  }

  /** The names on the list, in order. */
  function Names(items: seq<ShoppingItem>): (names: seq<string>)
    ensures |names| == |items|
    ensures forall i :: 0 <= i < |items| ==> names[i] == items[i].name
  {
    seq(|items|, i requires 0 <= i < |items| => items[i].name)
  }

  /** How many items are ticked. */
  function CheckedCount(items: seq<ShoppingItem>): nat {
    if items == [] then 0
    else CheckedCount(items[..|items| - 1]) + (if items[|items| - 1].checked then 1 else 0)
  }

  /** The items `addToShoppingList` builds, one per ingredient with its drawn id. */
  function NewItems(ingredients: seq<string>, ids: seq<string>): (r: seq<ShoppingItem>)
    requires |ids| == |ingredients|
    ensures |r| == |ingredients|
    ensures forall i :: 0 <= i < |r| ==> r[i] == NewItem(ids[i], ingredients[i])
  {
    seq(|ingredients|, i requires 0 <= i < |ingredients| => NewItem(ids[i], ingredients[i]))
  }

  /**
   * `addToShoppingList`: one unchecked "Ingredientes" item per ingredient,
   * appended after the existing items; `ids[i]` is the id drawn for
   * `ingredients[i]`.
   */
  function AddToShoppingList(items: seq<ShoppingItem>, ingredients: seq<string>, ids: seq<string>): (r: seq<ShoppingItem>)
    requires |ids| == |ingredients|
    ensures |r| == |items| + |ingredients|
    ensures r[..|items|] == items
    ensures Names(r) == Names(items) + ingredients
    ensures forall i :: |items| <= i < |r| ==> !r[i].checked && r[i].category == "Ingredientes"
    ensures forall i :: 0 <= i < |ingredients| ==> r[|items| + i].id == ids[i]
  {
    var r := items + NewItems(ingredients, ids);
    assert Names(r) == Names(items) + ingredients;
    r
  }

  lemma {:induction false} CheckedCountAppendUnchecked(items: seq<ShoppingItem>, added: seq<ShoppingItem>)
    requires forall i :: 0 <= i < |added| ==> !added[i].checked
    ensures CheckedCount(items + added) == CheckedCount(items)
    decreases |added|
  {
    if added != [] {
      var init := added[..|added| - 1];
      assert (items + added)[..|items + added| - 1] == items + init;
      CheckedCountAppendUnchecked(items, init);
    } else {
      assert items + added == items;
    }
  }

  /** The new items arrive unticked: the number of ticked items does not change. */
  lemma AddToShoppingListKeepsChecked(items: seq<ShoppingItem>, ingredients: seq<string>, ids: seq<string>)
    requires |ids| == |ingredients|
    ensures CheckedCount(AddToShoppingList(items, ingredients, ids)) == CheckedCount(items)
  {
    var r := AddToShoppingList(items, ingredients, ids);
    var added := r[|items|..];
    assert r == items + added;
    CheckedCountAppendUnchecked(items, added);
  }

  /** `toggleShoppingItem`: `checked: !item.checked` on the items with the given id. */
  function ToggleShoppingItem(items: seq<ShoppingItem>, id: string): (r: seq<ShoppingItem>)
    ensures |r| == |items|
    ensures forall i :: 0 <= i < |r| && items[i].id != id ==> r[i] == items[i]
    ensures forall i :: 0 <= i < |r| && items[i].id == id ==>
              r[i].checked == !items[i].checked && r[i] == items[i].(checked := r[i].checked)
  {
    seq(|items|, i requires 0 <= i < |items| =>
      if items[i].id == id then items[i].(checked := !items[i].checked) else items[i])
  }

  /** Ticking an item twice leaves the list as it was. */
  lemma ToggleShoppingItemTwice(items: seq<ShoppingItem>, id: string)
    ensures ToggleShoppingItem(ToggleShoppingItem(items, id), id) == items
  {
    var twice := ToggleShoppingItem(ToggleShoppingItem(items, id), id);
    assert forall i :: 0 <= i < |items| ==> twice[i] == items[i];
  }

  /** Ticking an item that was not just added commutes with adding ingredients. */
  lemma ToggleAfterAdd(items: seq<ShoppingItem>, ingredients: seq<string>, ids: seq<string>, id: string)
    requires |ids| == |ingredients| && id !in ids
    ensures ToggleShoppingItem(AddToShoppingList(items, ingredients, ids), id)
            == AddToShoppingList(ToggleShoppingItem(items, id), ingredients, ids)
  {
    var left := ToggleShoppingItem(AddToShoppingList(items, ingredients, ids), id);
    var right := AddToShoppingList(ToggleShoppingItem(items, id), ingredients, ids);
    forall i | |items| <= i < |left|
      ensures left[i] == right[i]
    {
      assert AddToShoppingList(items, ingredients, ids)[i].id == ids[i - |items|];
      assert right[i].id == ids[i - |items|];
    }
    assert left[..|items|] == right[..|items|];
  }

  /** The keep-test of `deleteShoppingItem`: `item.id !== id`. */
  function OtherId(id: string): ShoppingItem -> bool {
    (item: ShoppingItem) => item.id != id
  }

  /** `deleteShoppingItem`: the items whose id differs, in their order. */
  function DeleteShoppingItem(items: seq<ShoppingItem>, id: string): (r: seq<ShoppingItem>)
    ensures forall item: ShoppingItem :: item in r <==> item in items && item.id != id
    ensures forall item: ShoppingItem :: item.id != id ==> multiset(r)[item] == multiset(items)[item]
  {
    Filter(OtherId(id), items)
  }

  /** Deletion keeps the relative order of the survivors: it distributes over concatenation. */
  lemma DeleteShoppingItemAppend(a: seq<ShoppingItem>, b: seq<ShoppingItem>, id: string)
    ensures DeleteShoppingItem(a + b, id) == DeleteShoppingItem(a, id) + DeleteShoppingItem(b, id)
  {
    FilterConcat(OtherId(id), a, b);
  }

  /** Deleting an id no item carries changes nothing, and deleting twice is deleting once. */
  lemma DeleteShoppingItemIdempotent(items: seq<ShoppingItem>, id: string)
    ensures (forall item :: item in items ==> item.id != id) <==> DeleteShoppingItem(items, id) == items
    ensures DeleteShoppingItem(DeleteShoppingItem(items, id), id) == DeleteShoppingItem(items, id)
  {
    FilterIdentity(OtherId(id), items);
    FilterAllKept(OtherId(id), DeleteShoppingItem(items, id));
  }

  // ---------------------------------------------------------------------------
  // Categories
  // ---------------------------------------------------------------------------

  datatype AddCategoryOutcome = BlankName | AlreadyExists | Added(categories: seq<string>)

  /**
   * `addCategory`: a blank name is ignored, a name already on the list (the
   * exact, untrimmed text) is refused, any other name is appended as typed.
   */
  function AddCategory(categories: seq<string>, name: string): (r: AddCategoryOutcome)
    ensures r.BlankName? <==> IsBlank(name)
    ensures r.AlreadyExists? <==> !IsBlank(name) && name in categories
    ensures r.Added? ==> r.categories == categories + [name]
  {
    if IsBlank(name) then BlankName
    else if name in categories then AlreadyExists
    else Added(categories + [name])
  }

  /** A list without repeated names stays without repeated names. */
  lemma AddCategoryKeepsNoDuplicates(categories: seq<string>, name: string)
    requires NoDuplicates(categories)
    ensures AddCategory(categories, name).Added? ==> NoDuplicates(AddCategory(categories, name).categories)
  {
    if AddCategory(categories, name).Added? {
      var r := categories + [name];
      forall i, j | 0 <= i < j < |r|
        ensures r[i] != r[j]
      {
        if j == |categories| {
          assert r[i] == categories[i];
        }
      }
    }
  }

  /**
   * The duplicate test is exact: a name that differs from an existing one
   * only by a leading space is accepted as new.
   */
  lemma PaddedNameIsNew()
    ensures AddCategory(["Doces"], " Doces") == Added(["Doces", " Doces"])
  {
    assert " Doces"[1] == 'D';
    assert IsBlank(" Doces") ==> IsSpace(" Doces"[1]);
    assert " Doces" != "Doces";
  }

  /** The keep-test of the category filter: `c !== category`. */
  function OtherCategory(category: string): string -> bool {
    (c: string) => c != category
  }

  /** A recipe's categories after toggling one: every copy removed when present, else appended. */
  function ToggledCategories(categories: seq<string>, category: string): (r: seq<string>)
    ensures category in r <==> category !in categories
    ensures forall c :: c != category ==> (c in r <==> c in categories)
    ensures category !in categories ==> r == categories + [category]
    ensures category in categories ==> r == Filter(OtherCategory(category), categories)
  {
    if category in categories then Filter(OtherCategory(category), categories)
    else categories + [category]
  }

  /** `toggleRecipeCategory`: the recipes with the given id get their categories toggled. */
  function ToggleRecipeCategory(recipes: seq<Recipe>, recipeId: string, category: string): (r: seq<Recipe>)
    ensures |r| == |recipes|
    ensures forall i :: 0 <= i < |r| && recipes[i].id != recipeId ==> r[i] == recipes[i]
    ensures forall i :: 0 <= i < |r| && recipes[i].id == recipeId ==>
              && (category in Categories(r[i]) <==> category !in Categories(recipes[i]))
              && r[i] == recipes[i].(userCategories := Some(ToggledCategories(Categories(recipes[i]), category)))
  {
    seq(|recipes|, i requires 0 <= i < |recipes| =>
      if recipes[i].id == recipeId
      then recipes[i].(userCategories := Some(ToggledCategories(Categories(recipes[i]), category)))
      else recipes[i])
  }

  /** Toggling a category that is absent twice gives back the original categories. */
  lemma ToggledCategoriesTwice(categories: seq<string>, category: string)
    requires category !in categories
    ensures ToggledCategories(ToggledCategories(categories, category), category) == categories
  {
    var once := categories + [category];
    assert category in once;
    FilterConcat(OtherCategory(category), categories, [category]);
    FilterAllKept(OtherCategory(category), categories);
    assert Filter(OtherCategory(category), [category]) == [];
  }

  /**
   * Toggling twice restores the recipes whose category list was present
   * and lacked the category.
   */
  lemma ToggleRecipeCategoryTwice(recipes: seq<Recipe>, recipeId: string, category: string)
    requires forall i :: 0 <= i < |recipes| && recipes[i].id == recipeId ==>
               recipes[i].userCategories.Some? && category !in recipes[i].userCategories.value
    ensures ToggleRecipeCategory(ToggleRecipeCategory(recipes, recipeId, category), recipeId, category) == recipes
  {
    var twice := ToggleRecipeCategory(ToggleRecipeCategory(recipes, recipeId, category), recipeId, category);
    forall i | 0 <= i < |recipes|
      ensures twice[i] == recipes[i]
    {
      if recipes[i].id == recipeId {
        ToggledCategoriesTwice(Categories(recipes[i]), category);
      }
    }
  }

  /** A category list without repeats keeps none after a toggle. */
  lemma ToggledCategoriesKeepsNoDuplicates(categories: seq<string>, category: string)
    requires NoDuplicates(categories)
    ensures NoDuplicates(ToggledCategories(categories, category))
  {
    if category in categories {
      FilterNoDuplicates(OtherCategory(category), categories);
    } else {
      var r := categories + [category];
      forall i, j | 0 <= i < j < |r|
        ensures r[i] != r[j]
      {
        if j == |categories| {
          assert r[i] == categories[i];
        }
      }
    }
  }
}
