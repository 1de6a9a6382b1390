/**
 The bulk loader: the entries handed to it, the positional parameter list it binds for
 each entry, and the sequence of insert statements one `LoadItem`, `LoadRecipe` or
 `InsertWorldEntry` call issues.

 A parameter is a value or SQL NULL (`None`). Whether the parent insert succeeded is an
 oracle `parentOk`: the database is not modelled, only what is sent to it. The child
 inserts of one record are issued concurrently in the program; here they appear in the
 order the program creates them.
 */
module Loader {
  import opened Wrappers
  import opened Schema
  import SqlText

  datatype Value = IntValue(i: int) | TextValue(s: string) | BoolValue(b: bool)

  /** A bound parameter; `None` is a NULL. */
  type Param = Option<Value>

  /** One parameterised `INSERT INTO table VALUES ($1, ...)`: the parameter count the
      call site hands to `buildParameterSQLInsert`, and the values it binds. */
  datatype Statement = Insert(table: Table, count: SqlText.Int32, params: seq<Param>)

  /** The SQL text sent for a statement. */
  function StatementText(st: Statement): string {
    SqlText.InsertText(TableName(st.table), SqlText.EmittedCount(st.count))
  }

  datatype ItemEntry = ItemEntry(
    itemId: int,
    itemType: string,
    origins: Option<seq<string>>,
    name: string,
    itemLevel: int,
    equipmentTypes: Option<seq<string>>,
    specialCurrencyItemId: int,
    specialCurrencyCount: int,
    highQualityable: bool,
    marketable: bool,
    gilPrice: int,
    classJobRestriction: string)

  datatype Ingredient = Ingredient(ingredientId: int, quantity: int)

  datatype RecipeEntry = RecipeEntry(
    recipeId: int,
    craftedItemId: int,
    craftedItemCount: int,
    ingredients: Option<seq<Ingredient>>)

  datatype WorldEntry = WorldEntry(worldId: int, name: string, datacenter: string, isPublic: bool)

  // ---------------------------------------------------------------------------
  // Parameters and the schema
  // ---------------------------------------------------------------------------

  function TypeOf(v: Value): SqlType {
    match v
    case IntValue(_) => Integer
    case TextValue(_) => Text
    case BoolValue(_) => Boolean
  }

  /** A parameter a column accepts: NULL only in a nullable column, otherwise a value of
      the column's type. */
  predicate Fits(p: Param, c: Column) {
    match p
    case None => !c.notNull
    case Some(v) => TypeOf(v) == c.sqlType
  }

  /** A statement the table accepts: one placeholder and one parameter per column, each
      parameter fitting its column. */
  predicate Conforms(st: Statement) {
    && st.count == |Columns(st.table)|
    && |st.params| == |Columns(st.table)|
    && forall i :: 0 <= i < |st.params| ==> Fits(st.params[i], Columns(st.table)[i])
  }

  /** The sentinel rule for numbers: zero or less is sent as NULL. */
  function PositiveOrNull(x: int): (p: Param)
    ensures p == None <==> x <= 0
    ensures p.Some? ==> p.value == IntValue(x)
  {
    if x > 0 then Some(IntValue(x)) else None
  }

  /** The sentinel rule for text: the empty string is sent as NULL. */
  function NonEmptyOrNull(s: string): (p: Param)
    ensures p == None <==> |s| == 0
    ensures p.Some? ==> p.value == TextValue(s)
  {
    if |s| > 0 then Some(TextValue(s)) else None
  }

  /** The ten parameters of an item row, in the column order of `items`. */
  function ItemParams(item: ItemEntry): (p: seq<Param>)
    ensures |p| == 10
    ensures p[0] == Some(IntValue(item.itemId))
    ensures p[1] == Some(TextValue(item.itemType))
    ensures p[2] == Some(TextValue(item.name))
    ensures p[6] == Some(BoolValue(item.highQualityable))
    ensures p[7] == Some(BoolValue(item.marketable))
    ensures p[3] == None <==> item.itemLevel <= 0
    ensures p[4] == None <==> item.specialCurrencyItemId <= 0
    ensures p[5] == None <==> item.specialCurrencyCount <= 0
    ensures p[8] == None <==> item.gilPrice <= 0
    ensures p[9] == None <==> |item.classJobRestriction| == 0
    ensures p[3].Some? ==> p[3].value == IntValue(item.itemLevel)
    ensures p[4].Some? ==> p[4].value == IntValue(item.specialCurrencyItemId)
    ensures p[5].Some? ==> p[5].value == IntValue(item.specialCurrencyCount)
    ensures p[8].Some? ==> p[8].value == IntValue(item.gilPrice)
    ensures p[9].Some? ==> p[9].value == TextValue(item.classJobRestriction)
  {
    [ Some(IntValue(item.itemId)),
      Some(TextValue(item.itemType)),
      Some(TextValue(item.name)),
      PositiveOrNull(item.itemLevel),
      PositiveOrNull(item.specialCurrencyItemId),
      PositiveOrNull(item.specialCurrencyCount),
      Some(BoolValue(item.highQualityable)),
      Some(BoolValue(item.marketable)),
      PositiveOrNull(item.gilPrice),
      NonEmptyOrNull(item.classJobRestriction) ]
  }

  /** The item row is accepted by the `items` table: ten parameters, NULL only in the
      nullable columns, each value of its column's type. */
  lemma ItemParamsConform(item: ItemEntry)
    ensures Conforms(Insert(Items, 10, ItemParams(item)))
  {
    var p := ItemParams(item);
    var cs := Columns(Items);
    assert Fits(p[0], cs[0]) && Fits(p[1], cs[1]) && Fits(p[2], cs[2]) && Fits(p[3], cs[3]);
    assert Fits(p[4], cs[4]) && Fits(p[5], cs[5]) && Fits(p[6], cs[6]);
    assert Fits(p[7], cs[7]) && Fits(p[8], cs[8]) && Fits(p[9], cs[9]);
  }

  // ---------------------------------------------------------------------------
  // Reading an item row back
  // ---------------------------------------------------------------------------

  /** What persisting keeps of an entry: the sentinel fields collapse to 0 / "" for
      every value sent as NULL, and the tag lists live in other tables. */
  function Normalized(item: ItemEntry): ItemEntry {
    item.(
      origins := None,
      equipmentTypes := None,
      itemLevel := if item.itemLevel > 0 then item.itemLevel else 0,
      specialCurrencyItemId := if item.specialCurrencyItemId > 0 then item.specialCurrencyItemId else 0,
      specialCurrencyCount := if item.specialCurrencyCount > 0 then item.specialCurrencyCount else 0,
      gilPrice := if item.gilPrice > 0 then item.gilPrice else 0)
  }

  /** A column read back: an integer, with NULL read as 0. */
  predicate IsIntOrNull(p: Param) {
    p.None? || p.value.IntValue?
  }

  function IntOrZero(p: Param): int {
    if p.Some? && p.value.IntValue? then p.value.i else 0
  }

  predicate IsTextOrNull(p: Param) {
    p.None? || p.value.TextValue?
  }

  function TextOrEmpty(p: Param): string {
    if p.Some? && p.value.TextValue? then p.value.s else ""
  }

  predicate IsInt(p: Param) { p.Some? && p.value.IntValue? }
  predicate IsText(p: Param) { p.Some? && p.value.TextValue? }
  predicate IsBool(p: Param) { p.Some? && p.value.BoolValue? }

  /** The entry an `items` row reads back as, NULL read as 0 or "". */
  function ItemFromRow(p: seq<Param>): Option<ItemEntry> {
    if |p| == 10 && IsInt(p[0]) && IsText(p[1]) && IsText(p[2]) && IsBool(p[6]) && IsBool(p[7])
       && IsIntOrNull(p[3]) && IsIntOrNull(p[4]) && IsIntOrNull(p[5]) && IsIntOrNull(p[8])
       && IsTextOrNull(p[9])
    then
      Some(ItemEntry(p[0].value.i, p[1].value.s, None, p[2].value.s, IntOrZero(p[3]), None,
                     IntOrZero(p[4]), IntOrZero(p[5]), p[6].value.b, p[7].value.b, IntOrZero(p[8]),
                     TextOrEmpty(p[9])))
    else None
  }

  /** Reading back an item row gives the entry up to the sentinel rule. */
  lemma ItemRowRoundTrip(item: ItemEntry)
    ensures ItemFromRow(ItemParams(item)) == Some(Normalized(item))
  {
  }

  /** Two entries are sent as the same row exactly when they agree up to the sentinel
      rule: nothing but the sentinel collapse is lost. */
  lemma ItemParamsSameIff(a: ItemEntry, b: ItemEntry)
    ensures ItemParams(a) == ItemParams(b) <==> Normalized(a) == Normalized(b)
  {
    ItemRowRoundTrip(a);
    ItemRowRoundTrip(b);
    if Normalized(a) == Normalized(b) {
      assert ItemParams(a) == ItemParams(Normalized(a));
      assert ItemParams(b) == ItemParams(Normalized(b));
    }
  }

  // ---------------------------------------------------------------------------
  // Statements of one load
  // ---------------------------------------------------------------------------

  /** One `(id, tag)` row per tag, into `table`, in list order. */
  function TagRows(table: Table, id: int, tags: seq<string>): (r: seq<Statement>)
    ensures |r| == |tags|
    ensures forall k :: 0 <= k < |tags| ==>
      r[k] == Insert(table, 2, [Some(IntValue(id)), Some(TextValue(tags[k]))])
    decreases |tags|
  {
    if |tags| == 0 then []
    else [Insert(table, 2, [Some(IntValue(id)), Some(TextValue(tags[0]))])] + TagRows(table, id, tags[1..])
  }

  /** A null or empty tag list issues no rows. */
  function OptionalTagRows(table: Table, id: int, tags: Option<seq<string>>): (r: seq<Statement>)
    ensures r == TagRows(table, id, TagsOrEmpty(tags))
  {
    match tags
    case None => []
    case Some(ts) => if |ts| > 0 then TagRows(table, id, ts) else []
  }

  /** The statements `LoadItem` issues: the item row, then, only when that insert
      succeeded, one origin row per origin tag and one equipment-type row per
      equipment type. */
  function LoadItem(item: ItemEntry, parentOk: bool): (r: seq<Statement>)
    ensures |r| == 1 + (if parentOk then |TagsOrEmpty(item.origins)| + |TagsOrEmpty(item.equipmentTypes)| else 0)
    ensures r[0] == Insert(Items, 10, ItemParams(item))
    ensures forall k :: 1 <= k < |r| ==>
      && (r[k].table == ItemOrigins || r[k].table == ItemEquipmentTypes)
      && |r[k].params| == 2 && r[k].params[0] == Some(IntValue(item.itemId))
  {
    [Insert(Items, 10, ItemParams(item))]
    + if parentOk then
        OptionalTagRows(ItemOrigins, item.itemId, item.origins)
        + OptionalTagRows(ItemEquipmentTypes, item.itemId, item.equipmentTypes)
      else []
  }

  function RecipeParams(recipe: RecipeEntry): seq<Param> {
    [Some(IntValue(recipe.recipeId)), Some(IntValue(recipe.craftedItemId)), Some(IntValue(recipe.craftedItemCount))]
  }

  /** One `(recipe_id, ingredient_id, quantity)` row per ingredient, in list order. */
  function IngredientRows(recipeId: int, ingredients: seq<Ingredient>): (r: seq<Statement>)
    ensures |r| == |ingredients|
    ensures forall k :: 0 <= k < |ingredients| ==>
      r[k] == Insert(RecipeIngredients, 3, [Some(IntValue(recipeId)),
                                            Some(IntValue(ingredients[k].ingredientId)),
                                            Some(IntValue(ingredients[k].quantity))])
    decreases |ingredients|
  {
    if |ingredients| == 0 then []
    else
      [Insert(RecipeIngredients, 3, [Some(IntValue(recipeId)),
                                  Some(IntValue(ingredients[0].ingredientId)),
                                  Some(IntValue(ingredients[0].quantity))])]
      + IngredientRows(recipeId, ingredients[1..])
  }

  predicate HasIngredients(recipe: RecipeEntry) {
    recipe.ingredients.Some? && |recipe.ingredients.value| > 0
  }

  /** The statements `LoadRecipe` issues as written: the recipe row is attempted first;
      only after it succeeded is a null or empty ingredient list noticed (and nothing
      more is issued); otherwise one ingredient row per ingredient follows. */
  function LoadRecipe(recipe: RecipeEntry, parentOk: bool): (r: seq<Statement>)
    ensures |r| == 1 + (if parentOk && HasIngredients(recipe) then |recipe.ingredients.value| else 0)
    ensures r[0] == Insert(Recipes, 3, RecipeParams(recipe))
    ensures forall k :: 1 <= k < |r| ==>
      r[k].table == RecipeIngredients && |r[k].params| == 3 && r[k].params[0] == Some(IntValue(recipe.recipeId))
  {
    [Insert(Recipes, 3, RecipeParams(recipe))]
    + if !parentOk then []
      else if !HasIngredients(recipe) then []
      else IngredientRows(recipe.recipeId, recipe.ingredients.value)
  }

  /** The recipe load with the empty-ingredient check moved before the parent insert, so
      that a recipe without ingredients issues nothing at all. */
  function LoadRecipeChecked(recipe: RecipeEntry, parentOk: bool): (r: seq<Statement>)
    ensures r == [] <==> !HasIngredients(recipe)
    ensures HasIngredients(recipe) ==> r == LoadRecipe(recipe, parentOk)
  {
    if !HasIngredients(recipe) then []
    else
      [Insert(Recipes, 3, RecipeParams(recipe))]
      + if parentOk then IngredientRows(recipe.recipeId, recipe.ingredients.value) else []
  }

  function WorldParams(world: WorldEntry): seq<Param> {
    [Some(IntValue(world.worldId)), Some(TextValue(world.name)), Some(TextValue(world.datacenter)),
     Some(BoolValue(world.isPublic))]
  }

  /** `InsertWorldEntry`: a single statement into `worlds`, no children. */
  function InsertWorldEntry(world: WorldEntry): (r: seq<Statement>)
    ensures |r| == 1 && r[0].table == Worlds && Conforms(r[0])
  {
    [Insert(Worlds, 4, WorldParams(world))]
  }

  /** The world row reads back as the entry it was built from. */
  function WorldFromRow(p: seq<Param>): Option<WorldEntry> {
    if |p| != 4 then None
    else match (p[0], p[1], p[2], p[3])
      case (Some(IntValue(id)), Some(TextValue(nm)), Some(TextValue(dc)), Some(BoolValue(pub))) =>
        Some(WorldEntry(id, nm, dc, pub))
      case _ => None
  }

  lemma WorldRowRoundTrip(world: WorldEntry)
    ensures WorldFromRow(InsertWorldEntry(world)[0].params) == Some(world)
  {
  }

  // ---------------------------------------------------------------------------
  // Rows per table
  // ---------------------------------------------------------------------------

  /** The parameter lists of the statements into `t`, in issue order. */
  function RowsOf(stmts: seq<Statement>, t: Table): seq<seq<Param>>
    decreases |stmts|
  {
    if |stmts| == 0 then []
    else (if stmts[0].table == t then [stmts[0].params] else []) + RowsOf(stmts[1..], t)
  }

  lemma {:induction false} RowsOfAppend(a: seq<Statement>, b: seq<Statement>, t: Table)
    ensures RowsOf(a + b, t) == RowsOf(a, t) + RowsOf(b, t)
    decreases |a|
  {
    if |a| == 0 {
      assert a + b == b;
    } else {
      assert (a + b)[1..] == a[1..] + b;
      RowsOfAppend(a[1..], b, t);
    }
  }

  /** The `(id, tag)` rows for a tag list. */
  function TagRowParams(id: int, tags: seq<string>): (r: seq<seq<Param>>)
    ensures |r| == |tags|
    ensures forall k :: 0 <= k < |tags| ==> r[k] == [Some(IntValue(id)), Some(TextValue(tags[k]))]
  {
    seq(|tags|, k requires 0 <= k < |tags| => [Some(IntValue(id)), Some(TextValue(tags[k]))])
  }

  /** The tag rows go to their own table only, one per tag, each carrying the id, in
      list order. */
  lemma {:induction false} TagRowsContents(table: Table, id: int, tags: seq<string>, t: Table)
    ensures RowsOf(TagRows(table, id, tags), t) == if t == table then TagRowParams(id, tags) else []
    decreases |tags|
  {
    if |tags| > 0 {
      var head := [Insert(table, 2, [Some(IntValue(id)), Some(TextValue(tags[0]))])];
      assert TagRows(table, id, tags) == head + TagRows(table, id, tags[1..]);
      RowsOfAppend(head, TagRows(table, id, tags[1..]), t);
      assert RowsOf(head, t) == if t == table then [head[0].params] else [];
      TagRowsContents(table, id, tags[1..], t);
      if t == table {
        assert TagRowParams(id, tags) == [head[0].params] + TagRowParams(id, tags[1..]);
      }
    }
  }

  /** Every tag row is accepted by its table: an integer id and a non-null text. */
  lemma {:induction false} TagRowsConform(table: Table, id: int, tags: seq<string>)
    requires table == ItemOrigins || table == ItemEquipmentTypes
    ensures forall k :: 0 <= k < |TagRows(table, id, tags)| ==> Conforms(TagRows(table, id, tags)[k])
    decreases |tags|
  {
    if |tags| > 0 {
      var rows := TagRows(table, id, tags);
      var rest := TagRows(table, id, tags[1..]);
      TagRowsConform(table, id, tags[1..]);
      assert Conforms(rows[0]);
      forall k | 1 <= k < |rows| ensures Conforms(rows[k]) {
        assert rows[k] == rest[k - 1];
      }
    }
  }

  /** The ingredient rows for an ingredient list. */
  function IngredientRowParams(recipeId: int, ingredients: seq<Ingredient>): (r: seq<seq<Param>>)
    ensures |r| == |ingredients|
    ensures forall k :: 0 <= k < |ingredients| ==>
      r[k] == [Some(IntValue(recipeId)), Some(IntValue(ingredients[k].ingredientId)), Some(IntValue(ingredients[k].quantity))]
  {
    seq(|ingredients|, k requires 0 <= k < |ingredients| =>
      [Some(IntValue(recipeId)), Some(IntValue(ingredients[k].ingredientId)), Some(IntValue(ingredients[k].quantity))])
  }

  /** The ingredient rows go to `recipe_ingredients` only, one per ingredient, in list
      order. */
  lemma {:induction false} IngredientRowsContents(recipeId: int, ingredients: seq<Ingredient>, t: Table)
    ensures RowsOf(IngredientRows(recipeId, ingredients), t)
            == if t == RecipeIngredients then IngredientRowParams(recipeId, ingredients) else []
    decreases |ingredients|
  {
    if |ingredients| > 0 {
      var head := [Insert(RecipeIngredients, 3, [Some(IntValue(recipeId)),
                                              Some(IntValue(ingredients[0].ingredientId)),
                                              Some(IntValue(ingredients[0].quantity))])];
      assert IngredientRows(recipeId, ingredients) == head + IngredientRows(recipeId, ingredients[1..]);
      RowsOfAppend(head, IngredientRows(recipeId, ingredients[1..]), t);
      assert RowsOf(head, t) == if t == RecipeIngredients then [head[0].params] else [];
      IngredientRowsContents(recipeId, ingredients[1..], t);
      if t == RecipeIngredients {
        assert IngredientRowParams(recipeId, ingredients)
            == [head[0].params] + IngredientRowParams(recipeId, ingredients[1..]);
      }
    }
  }

  /** Every ingredient row is accepted by `recipe_ingredients`: three integers. */
  lemma {:induction false} IngredientRowsConform(recipeId: int, ingredients: seq<Ingredient>)
    ensures forall k :: 0 <= k < |IngredientRows(recipeId, ingredients)| ==>
      Conforms(IngredientRows(recipeId, ingredients)[k])
    decreases |ingredients|
  {
    if |ingredients| > 0 {
      var rows := IngredientRows(recipeId, ingredients);
      var rest := IngredientRows(recipeId, ingredients[1..]);
      IngredientRowsConform(recipeId, ingredients[1..]);
      assert Conforms(rows[0]);
      forall k | 1 <= k < |rows| ensures Conforms(rows[k]) {
        assert rows[k] == rest[k - 1];
      }
    }
  }

  function TagsOrEmpty(tags: Option<seq<string>>): seq<string> {
    match tags
    case None => []
    case Some(ts) => ts
  }

  /** What one `LoadItem` sends, table by table: one item row whatever the oracle says;
      when the item insert failed nothing else; when it succeeded one origin row per
      origin and one equipment-type row per equipment type, in list order, each carrying
      the item's id (none for a null or empty list); nothing into any other table. Every
      statement is accepted by its table's columns. */
  lemma LoadItemRows(item: ItemEntry, parentOk: bool)
    ensures RowsOf(LoadItem(item, parentOk), Items) == [ItemParams(item)]
    ensures RowsOf(LoadItem(item, parentOk), ItemOrigins)
            == if parentOk then TagRowParams(item.itemId, TagsOrEmpty(item.origins)) else []
    ensures RowsOf(LoadItem(item, parentOk), ItemEquipmentTypes)
            == if parentOk then TagRowParams(item.itemId, TagsOrEmpty(item.equipmentTypes)) else []
    ensures forall t :: t !in {Items, ItemOrigins, ItemEquipmentTypes} ==> RowsOf(LoadItem(item, parentOk), t) == []
  {
    var all := LoadItem(item, parentOk);
    var parent := [Insert(Items, 10, ItemParams(item))];
    var os := TagsOrEmpty(item.origins);
    var es := TagsOrEmpty(item.equipmentTypes);
    var origins := TagRows(ItemOrigins, item.itemId, os);
    var equipment := TagRows(ItemEquipmentTypes, item.itemId, es);
    assert OptionalTagRows(ItemOrigins, item.itemId, item.origins) == origins;
    assert OptionalTagRows(ItemEquipmentTypes, item.itemId, item.equipmentTypes) == equipment;
    var kids := if parentOk then origins + equipment else [];
    assert all == parent + kids;
    forall t
      ensures RowsOf(all, t) == RowsOf(parent, t) + (if parentOk then RowsOf(origins, t) + RowsOf(equipment, t) else [])
    {
      RowsOfAppend(parent, kids, t);
      if parentOk {
        RowsOfAppend(origins, equipment, t);
      }
      RowsOfSingleton(parent[0], t);
    }
    forall t
      ensures RowsOf(origins, t) == if t == ItemOrigins then TagRowParams(item.itemId, os) else []
      ensures RowsOf(equipment, t) == if t == ItemEquipmentTypes then TagRowParams(item.itemId, es) else []
      ensures RowsOf(parent, t) == if t == Items then [ItemParams(item)] else []
    {
      TagRowsContents(ItemOrigins, item.itemId, os, t);
      TagRowsContents(ItemEquipmentTypes, item.itemId, es, t);
      RowsOfSingleton(parent[0], t);
    }
  }

  /** Every statement one `LoadItem` sends is accepted by its table. */
  lemma LoadItemConforms(item: ItemEntry, parentOk: bool)
    ensures forall k :: 0 <= k < |LoadItem(item, parentOk)| ==> Conforms(LoadItem(item, parentOk)[k])
  {
    var all := LoadItem(item, parentOk);
    var os := TagsOrEmpty(item.origins);
    var es := TagsOrEmpty(item.equipmentTypes);
    var origins := TagRows(ItemOrigins, item.itemId, os);
    var equipment := TagRows(ItemEquipmentTypes, item.itemId, es);
    assert OptionalTagRows(ItemOrigins, item.itemId, item.origins) == origins;
    assert OptionalTagRows(ItemEquipmentTypes, item.itemId, item.equipmentTypes) == equipment;
    assert all == [Insert(Items, 10, ItemParams(item))] + (if parentOk then origins + equipment else []);
    TagRowsConform(ItemOrigins, item.itemId, os);
    TagRowsConform(ItemEquipmentTypes, item.itemId, es);
    ItemParamsConform(item);
    forall k | 0 <= k < |all| ensures Conforms(all[k]) {
      if k > 0 {
        assert parentOk;
        if k - 1 < |origins| {
          assert all[k] == origins[k - 1];
        } else {
          assert all[k] == equipment[k - 1 - |origins|];
        }
      }
    }
  }

  lemma RowsOfSingleton(st: Statement, t: Table)
    ensures RowsOf([st], t) == if st.table == t then [st.params] else []
  {
    assert [st][1..] == [];
  }

  /** What one `LoadRecipe` sends: the recipe row whatever happens; when it succeeded
      and the recipe has ingredients, one `(recipe_id, ingredient_id, quantity)` row per
      ingredient in list order; otherwise nothing more. */
  lemma LoadRecipeRows(recipe: RecipeEntry, parentOk: bool)
    ensures RowsOf(LoadRecipe(recipe, parentOk), Recipes) == [RecipeParams(recipe)]
    ensures RowsOf(LoadRecipe(recipe, parentOk), RecipeIngredients)
            == if parentOk && HasIngredients(recipe)
               then IngredientRowParams(recipe.recipeId, recipe.ingredients.value) else []
    ensures forall t :: t !in {Recipes, RecipeIngredients} ==> RowsOf(LoadRecipe(recipe, parentOk), t) == []
  {
    var all := LoadRecipe(recipe, parentOk);
    var parent := [Insert(Recipes, 3, RecipeParams(recipe))];
    var ings := if HasIngredients(recipe) then recipe.ingredients.value else [];
    var children := IngredientRows(recipe.recipeId, ings);
    var kids := if parentOk then children else [];
    assert all == parent + kids;
    forall t
      ensures RowsOf(all, t) == RowsOf(parent, t) + (if parentOk then RowsOf(children, t) else [])
      ensures RowsOf(children, t) == if t == RecipeIngredients then IngredientRowParams(recipe.recipeId, ings) else []
      ensures RowsOf(parent, t) == if t == Recipes then [RecipeParams(recipe)] else []
    {
      RowsOfAppend(parent, kids, t);
      RowsOfSingleton(parent[0], t);
      IngredientRowsContents(recipe.recipeId, ings, t);
    }
  }

  /** Every statement one `LoadRecipe` sends is accepted by its table. */
  lemma LoadRecipeConforms(recipe: RecipeEntry, parentOk: bool)
    ensures forall k :: 0 <= k < |LoadRecipe(recipe, parentOk)| ==> Conforms(LoadRecipe(recipe, parentOk)[k])
  {
    var all := LoadRecipe(recipe, parentOk);
    var ings := if HasIngredients(recipe) then recipe.ingredients.value else [];
    var children := IngredientRows(recipe.recipeId, ings);
    assert all == [Insert(Recipes, 3, RecipeParams(recipe))] + (if parentOk then children else []);
    IngredientRowsConform(recipe.recipeId, ings);
    forall k | 0 <= k < |all| ensures Conforms(all[k]) {
      if k > 0 {
        assert all[k] == children[k - 1];
      }
    }
  }

  /** As written, a recipe without ingredients still has its recipe row sent, and
      nothing else. */
  lemma LoadRecipeEmptyStillInserts(recipe: RecipeEntry, parentOk: bool)
    requires !HasIngredients(recipe)
    ensures LoadRecipe(recipe, parentOk) == [Insert(Recipes, 3, RecipeParams(recipe))]
  {
  }

  /** A statement the table accepts has text whose placeholders are exactly `$1 .. $n`
      for the n columns of its table, so every bound parameter has a placeholder. */
  lemma StatementTextMatchesColumns(st: Statement)
    requires Conforms(st)
    ensures StatementText(st) == SqlText.InsertText(TableName(st.table), |Columns(st.table)|)
    ensures SqlText.ParseInsert(TableName(st.table), StatementText(st)) == Some(SqlText.Range(|st.params|))
  {
    SqlText.InsertTextRoundTrip(TableName(st.table), |Columns(st.table)|);
  }

  /** Every statement one item, recipe or world load sends has text whose placeholders
      are `$1 .. $n` for its n bound parameters: the literal counts the call sites pass
      (10, 2, 3 and 4) match the columns of their tables. */
  lemma LoadedTextsBindEveryParam(item: ItemEntry, recipe: RecipeEntry, world: WorldEntry, parentOk: bool)
    ensures forall k :: 0 <= k < |LoadItem(item, parentOk)| ==>
      var st := LoadItem(item, parentOk)[k];
      SqlText.ParseInsert(TableName(st.table), StatementText(st)) == Some(SqlText.Range(|st.params|))
    ensures forall k :: 0 <= k < |LoadRecipe(recipe, parentOk)| ==>
      var st := LoadRecipe(recipe, parentOk)[k];
      SqlText.ParseInsert(TableName(st.table), StatementText(st)) == Some(SqlText.Range(|st.params|))
    ensures var st := InsertWorldEntry(world)[0];
      SqlText.ParseInsert(TableName(st.table), StatementText(st)) == Some(SqlText.Range(|st.params|))
  {
    LoadItemConforms(item, parentOk);
    LoadRecipeConforms(recipe, parentOk);
    forall k | 0 <= k < |LoadItem(item, parentOk)|
      ensures var st := LoadItem(item, parentOk)[k];
        SqlText.ParseInsert(TableName(st.table), StatementText(st)) == Some(SqlText.Range(|st.params|))
    {
      StatementTextMatchesColumns(LoadItem(item, parentOk)[k]);
    }
    forall k | 0 <= k < |LoadRecipe(recipe, parentOk)|
      ensures var st := LoadRecipe(recipe, parentOk)[k];
        SqlText.ParseInsert(TableName(st.table), StatementText(st)) == Some(SqlText.Range(|st.params|))
    {
      StatementTextMatchesColumns(LoadRecipe(recipe, parentOk)[k]);
    }
    StatementTextMatchesColumns(InsertWorldEntry(world)[0]);
  }
}
